/** The external bibliographic sources: the early-return guards of each
    `obtener_*` method and the normaliser of an ORCID works listing. The HTTP
    exchange itself is a parameter: the status and decoded body a request
    would have produced, or the error it raised. */
module ApiExternaService {
  import opened PyValues

  /** What `requests.get` produced: a response with its status and decoded
      body, or a raised exception (timeout, connection or decoding error). */
  datatype Http<D> = Response(status: int, data: D) | RequestError

  /** One item of the normalised publication list. `doi` and `anio` are
      `None` when the JSON value under the last key is `null`. */
  datatype Publicacion = Publicacion(titulo: string, doi: Option<string>, anio: Option<string>, tipo: string)

  // ------------------------------------------------------------------
  // The ORCID works listing
  // ------------------------------------------------------------------

  /** One key of a JSON object as `.get(key, default)` sees it: missing (the
      default is used), present with the value `null`, or present with a value. */
  datatype Field<T> = Absent | Null | Present(v: T)

  /** A chain `x.get(k1, {}).get(k2, {}).get('value', '')`: the object under
      `k1`, the object under `k2` inside it, and the final value. */
  type Chain = Field<Field<Field<string>>>

  /** `external-ids.external-id`: an object whose `external-id` list holds
      entries that are `null` (`None`) or objects with an `external-id-value`. */
  type ExternalIds = Field<Field<seq<Option<Field<string>>>>>

  /** A `work-summary` entry: `title.title.value`, the external ids and
      `publication-date.year.value`. */
  datatype Summary = Summary(title: Chain, externalIds: ExternalIds, date: Chain)

  /** `{}`: what a missing `work-summary` key reads as. */
  const EMPTY_SUMMARY := Summary(Absent, Absent, Absent)

  /** An entry of the `group` list: its `work-summary` list, whose entries
      may be `null` (`None`). */
  datatype Work = Work(summaries: Field<seq<Option<Summary>>>)

  /** The decoded body: its `group` list, whose entries may be `null` (`None`). */
  datatype OrcidData = OrcidData(group: Field<seq<Option<Work>>>)

  /** The exceptions a lookup can raise. */
  const INDEX_ERROR := "IndexError: list index out of range"
  const TYPE_ERROR := "TypeError: 'NoneType' object is not subscriptable"
  const NOT_ITERABLE := "TypeError: 'NoneType' object is not iterable"
  const ATTRIBUTE_ERROR := "AttributeError: 'NoneType' object has no attribute 'get'"

  predicate LookupError(e: string) {
    e == INDEX_ERROR || e == TYPE_ERROR || e == NOT_ITERABLE || e == ATTRIBUTE_ERROR
  }

  /** `x.get(k, default)` whose result is read with a further `.get`: a
      `null` value makes that next `.get` raise. */
  function Step<T>(f: Field<T>, default: T): (r: Result<T>)
    ensures r.Failure? <==> f.Null?
    ensures r.Failure? ==> r.error == ATTRIBUTE_ERROR
    ensures f.Absent? ==> r == Success(default)
    ensures f.Present? ==> r == Success(f.v)
  {
    match f
    case Absent => Success(default)
    case Null => Failure(ATTRIBUTE_ERROR)
    case Present(v) => Success(v)
  }

  /** The last `.get('value', '')` of a chain: `''` when missing, `None` for `null`. */
  function Leaf(f: Field<string>): (r: Option<string>)
    ensures r.None? <==> f.Null?
    ensures f.Absent? ==> r == Some("")
    ensures f.Present? ==> r == Some(f.v)
  {
    match f
    case Absent => Some("")
    case Null => None
    case Present(v) => Some(v)
  }

  /** The value a chain reads, or the error of a `null` met before its last key. */
  function ValueOf(c: Chain): Result<Option<string>> {
    match Step(c, Absent)
    case Failure(e) => Failure(e)
    case Success(inner) =>
      match Step(inner, Absent)
      case Failure(e) => Failure(e)
      case Success(leaf) => Success(Leaf(leaf))
  }

  /** `work.get('work-summary', [{}])[0]`, and the `.get` the title lookup
      then applies to it: a `null` group entry or summary entry raises
      `AttributeError`, a `null` list `TypeError`, an empty list `IndexError`. */
  function SummaryOf(w: Option<Work>): Result<Summary> {
    match w
    case None => Failure(ATTRIBUTE_ERROR)
    case Some(work) =>
      match work.summaries
      case Absent => Success(EMPTY_SUMMARY)
      case Null => Failure(TYPE_ERROR)
      case Present(ss) =>
        if |ss| == 0 then Failure(INDEX_ERROR)
        else match ss[0]
          case None => Failure(ATTRIBUTE_ERROR)
          case Some(summary) => Success(summary)
  }

  /** `.get('external-ids', {}).get('external-id', [{}])[0].get('external-id-value', '')`. */
  function DoiOf(s: Summary): Result<Option<string>> {
    match Step(s.externalIds, Absent)
    case Failure(e) => Failure(e)
    case Success(ext) =>
      match ext
      case Absent => Success(Some(""))
      case Null => Failure(TYPE_ERROR)
      case Present(ids) =>
        if |ids| == 0 then Failure(INDEX_ERROR)
        else match ids[0]
          case None => Failure(ATTRIBUTE_ERROR)
          case Some(leaf) => Success(Leaf(leaf))
  }

  /** What one group contributes: nothing when its title is falsy (`''` or
      `None`), one publication otherwise, or the error a lookup raises. The
      dictionary's values are computed in the order `titulo`, `doi`, `año`. */
  function Item(w: Option<Work>): Result<Option<Publicacion>> {
    match SummaryOf(w)
    case Failure(e) => Failure(e)
    case Success(s) =>
      match ValueOf(s.title)
      case Failure(e) => Failure(e)
      case Success(titulo) =>
        if !Truthy(titulo) then Success(None)
        else match DoiOf(s)
          case Failure(e) => Failure(e)
          case Success(doi) =>
            match ValueOf(s.date)
            case Failure(e) => Failure(e)
            case Success(anio) => Success(Some(Publicacion(titulo.value, doi, anio, "articulo")))
  }

  /** The group raises. */
  predicate Raises(w: Option<Work>) {
    Item(w).Failure?
  }

  /** The group contributes a publication. */
  predicate Titled(w: Option<Work>) {
    Item(w).Success? && Item(w).value.Some?
  }

  // The shape of a group that raises, read off the JSON structure alone.

  /** A chain meets `null` before its last key. */
  predicate NullLevel(c: Chain) {
    c.Null? || (c.Present? && c.v.Null?)
  }

  /** The `work-summary` lookup cannot reach a summary object. */
  predicate BadSummaries(w: Option<Work>) {
    w.None? || w.value.summaries.Null?
    || (w.value.summaries.Present? && (|w.value.summaries.v| == 0 || w.value.summaries.v[0].None?))
  }

  /** The summary the lookup reaches (`{}` when there is none). */
  function FirstSummary(w: Option<Work>): Summary {
    if BadSummaries(w) || w.value.summaries.Absent? then EMPTY_SUMMARY else w.value.summaries.v[0].value
  }

  /** `title.title.value` is a non-empty string. */
  predicate HasTitle(s: Summary) {
    s.title.Present? && s.title.v.Present? && s.title.v.v.Present? && s.title.v.v.v != ""
  }

  /** The external-id lookup meets `null`, an empty list or a `null` entry. */
  predicate BadIds(e: ExternalIds) {
    e.Null? || (e.Present? && (e.v.Null? || (e.v.Present? && (|e.v.v| == 0 || e.v.v[0].None?))))
  }

  /** A group raises exactly when its `work-summary` lookup fails, its title
      chain meets `null` before `value`, or it is titled and its external-id
      or publication-date lookup fails. A `null` title value is falsy and
      skips the group without raising. */
  lemma RaisesIff(w: Option<Work>)
    ensures Raises(w) <==>
              BadSummaries(w)
              || NullLevel(FirstSummary(w).title)
              || (HasTitle(FirstSummary(w)) && (BadIds(FirstSummary(w).externalIds) || NullLevel(FirstSummary(w).date)))
  {
    if !BadSummaries(w) {
      var s := FirstSummary(w);
      assert SummaryOf(w) == Success(s);
      if !NullLevel(s.title) {
        assert ValueOf(s.title).Success?;
        assert Truthy(ValueOf(s.title).value) <==> HasTitle(s);
      }
    }
  }

  /** The groups `for work in works` iterates over (none when `group` is
      missing or `null`). */
  function GroupList(data: OrcidData): seq<Option<Work>> {
    if data.group.Present? then data.group.v else []
  }

  /** `data.get('group', [])`: iterating a `null` list raises. */
  function Groups(data: OrcidData): (r: Result<seq<Option<Work>>>)
    ensures r.Failure? <==> data.group.Null?
    ensures r.Success? ==> r.value == GroupList(data)
  {
    match data.group
    case Absent => Success([])
    case Null => Failure(NOT_ITERABLE)
    case Present(ws) => Success(ws)
  }

  /** `_procesar_respuesta_orcid` over the groups, in order; the first
      failing lookup aborts the whole listing. */
  function Procesar(works: seq<Option<Work>>): (r: Result<seq<Publicacion>>)
    ensures r.Failure? ==> LookupError(r.error)
    ensures r.Success? ==> |r.value| <= |works|
    ensures r.Success? ==> forall i :: 0 <= i < |r.value| ==> r.value[i].titulo != "" && r.value[i].tipo == "articulo"
  {
    if |works| == 0 then Success([])
    else
      match Procesar(works[..|works| - 1])
      case Failure(e) => Failure(e)
      case Success(ps) =>
        match Item(works[|works| - 1])
        case Failure(e) => Failure(e)
        case Success(o) => Success(if o.Some? then ps + [o.value] else ps)
  }

  /** `_procesar_respuesta_orcid(data)`. */
  function Listing(data: OrcidData): Result<seq<Publicacion>> {
    match Groups(data)
    case Failure(e) => Failure(e)
    case Success(works) => Procesar(works)
  }

  /** Once a prefix of the groups raises, the whole listing raises the same error. */
  lemma {:induction false} FailureAborts(works: seq<Option<Work>>, k: nat)
    requires k <= |works| && Procesar(works[..k]).Failure?
    ensures Procesar(works) == Procesar(works[..k])
    decreases |works| - k
  {
    if k < |works| {
      assert works[..k + 1][..k] == works[..k];
      FailureAborts(works, k + 1);
    } else {
      assert works[..k] == works;
    }
  }

  /** `_procesar_respuesta_orcid`: appends one publication per titled group. */
  method ProcesarRespuestaOrcid(data: OrcidData) returns (r: Result<seq<Publicacion>>)
    ensures r == Listing(data)
  {
    var groups := Groups(data);
    if groups.Failure? {
      return Failure(groups.error);
    }
    var works := groups.value;
    var publicaciones: seq<Publicacion> := [];
    for k := 0 to |works|
      invariant Procesar(works[..k]) == Success(publicaciones)
    {
      assert works[..k + 1][..k] == works[..k];
      var summary := SummaryOf(works[k]);
      if summary.Failure? {
        FailureAborts(works, k + 1);
        return Failure(summary.error);
      }
      var s := summary.value;
      var titulo := ValueOf(s.title);
      if titulo.Failure? {
        FailureAborts(works, k + 1);
        return Failure(titulo.error);
      }
      if Truthy(titulo.value) {
        var doi := DoiOf(s);
        if doi.Failure? {
          FailureAborts(works, k + 1);
          return Failure(doi.error);
        }
        var anio := ValueOf(s.date);
        if anio.Failure? {
          FailureAborts(works, k + 1);
          return Failure(anio.error);
        }
        publicaciones := publicaciones + [Publicacion(titulo.value.value, doi.value, anio.value, "articulo")];
      }
    }
    assert works[..|works|] == works;
    return Success(publicaciones);
  }

  /** The listing fails exactly when some group raises. */
  lemma {:induction false} ProcesarFailsIff(works: seq<Option<Work>>)
    ensures Procesar(works).Failure? <==> exists i :: 0 <= i < |works| && Raises(works[i])
    decreases |works|
  {
    if |works| > 0 {
      var init := works[..|works| - 1];
      ProcesarFailsIff(init);
      if exists i :: 0 <= i < |init| && Raises(init[i]) {
        var i :| 0 <= i < |init| && Raises(init[i]);
        assert works[i] == init[i];
      }
      if exists i :: 0 <= i < |works| && Raises(works[i]) {
        var i :| 0 <= i < |works| && Raises(works[i]);
        if i < |init| {
          assert init[i] == works[i];
        }
      }
    }
  }

  /** The body fails exactly when `group` is `null` or some group raises. */
  lemma ListingFailsIff(data: OrcidData)
    ensures Listing(data).Failure? <==>
              data.group.Null? || exists i :: 0 <= i < |GroupList(data)| && Raises(GroupList(data)[i])
  {
    ProcesarFailsIff(GroupList(data));
  }

  /** A normaliser over any per-group reading `item`: the groups' items in
      order, aborting at the first error. */
  function Collect<W, P>(works: seq<W>, item: W -> Result<Option<P>>): Result<seq<P>> {
    if |works| == 0 then Success([])
    else
      match Collect(works[..|works| - 1], item)
      case Failure(e) => Failure(e)
      case Success(ps) =>
        match item(works[|works| - 1])
        case Failure(e) => Failure(e)
        case Success(o) => Success(if o.Some? then ps + [o.value] else ps)
  }

  lemma {:induction false} ProcesarIsCollect(works: seq<Option<Work>>)
    ensures Procesar(works) == Collect(works, Item)
    decreases |works|
  {
    if |works| > 0 {
      ProcesarIsCollect(works[..|works| - 1]);
    }
  }

  /** A successful collection keeps the groups' order: item `i` comes from
      group `idx[i]`, the indexes increase, and every group with an item is listed. */
  lemma {:induction false} CollectKeepsOrder<W, P>(works: seq<W>, item: W -> Result<Option<P>>) returns (idx: seq<nat>)
    requires Collect(works, item).Success?
    ensures |idx| == |Collect(works, item).value|
    ensures forall i :: 0 <= i < |idx| ==> idx[i] < |works| && item(works[idx[i]]) == Success(Some(Collect(works, item).value[i]))
    ensures forall i, j :: 0 <= i < j < |idx| ==> idx[i] < idx[j]
    ensures forall j :: 0 <= j < |works| && item(works[j]).Success? && item(works[j]).value.Some? ==> j in idx
    decreases |works|
  {
    if |works| == 0 {
      idx := [];
    } else {
      var init := works[..|works| - 1];
      var last := |works| - 1;
      idx := CollectKeepsOrder(init, item);
      assert forall i :: 0 <= i < |idx| ==> works[idx[i]] == init[idx[i]];
      if item(works[last]).value.Some? {
        idx := idx + [last];
      }
      forall j | 0 <= j < |works| && item(works[j]).Success? && item(works[j]).value.Some?
        ensures j in idx
      {
        if j < last {
          assert init[j] == works[j];
        }
      }
    }
  }

  /** The listing keeps the groups' order: publication `i` comes from group
      `idx[i]`, the indexes increase, and every titled group is listed. */
  lemma ProcesarKeepsOrder(works: seq<Option<Work>>) returns (idx: seq<nat>)
    requires Procesar(works).Success?
    ensures |idx| == |Procesar(works).value|
    ensures forall i :: 0 <= i < |idx| ==> idx[i] < |works| && Item(works[idx[i]]) == Success(Some(Procesar(works).value[i]))
    ensures forall i, j :: 0 <= i < j < |idx| ==> idx[i] < idx[j]
    ensures forall j :: 0 <= j < |works| && Titled(works[j]) ==> j in idx
  {
    ProcesarIsCollect(works);
    idx := CollectKeepsOrder(works, Item);
  }

  /** `obtener_publicaciones_orcid`: without a client id or an ORCID id
      nothing is requested; a failed request, a non-200 status, a body that
      is not a JSON object (`None`: its `.get` raises) or a listing that
      raises all give `[]`. */
  function ObtenerOrcid(orcidClientId: Option<string>, orcidId: Option<string>, respuesta: Http<Option<OrcidData>>)
    : (r: seq<Publicacion>)
    ensures !Truthy(orcidClientId) || !Truthy(orcidId) ==> r == []
    ensures respuesta.RequestError? || (respuesta.Response? && (respuesta.status != 200 || respuesta.data.None?)) ==> r == []
  {
    if !Truthy(orcidClientId) || !Truthy(orcidId) then []
    else match respuesta
      case RequestError => []
      case Response(status, body) =>
        if status != 200 || body.None? then []
        else match Listing(body.value)
          case Failure(_) => []
          case Success(ps) => ps
  }

  /** With both ids configured and a 200 response, the result is the listing
      when no lookup raises; when `group` is `null` or any group raises, the
      error is caught and the result is `[]`. */
  lemma OrcidReturnsListing(orcidClientId: Option<string>, orcidId: Option<string>, data: OrcidData)
    requires Truthy(orcidClientId) && Truthy(orcidId)
    ensures !data.group.Null? && (forall i :: 0 <= i < |GroupList(data)| ==> !Raises(GroupList(data)[i])) ==>
              Listing(data).Success? &&
              ObtenerOrcid(orcidClientId, orcidId, Response(200, Some(data))) == Listing(data).value
    ensures data.group.Null? || (exists i :: 0 <= i < |GroupList(data)| && Raises(GroupList(data)[i])) ==>
              ObtenerOrcid(orcidClientId, orcidId, Response(200, Some(data))) == []
  {
    ListingFailsIff(data);
  }

  /** One titled work whose `publication-date` is `null` empties the whole
      ORCID import, however many good works the listing holds. */
  lemma NullDateEmptiesImport(orcidClientId: Option<string>, orcidId: Option<string>, data: OrcidData, i: nat)
    requires Truthy(orcidClientId) && Truthy(orcidId)
    requires i < |GroupList(data)| && !BadSummaries(GroupList(data)[i])
    requires HasTitle(FirstSummary(GroupList(data)[i])) && FirstSummary(GroupList(data)[i]).date.Null?
    ensures ObtenerOrcid(orcidClientId, orcidId, Response(200, Some(data))) == []
  {
    RaisesIff(GroupList(data)[i]);
    OrcidReturnsListing(orcidClientId, orcidId, data);
  }

  /** A `null` title value is falsy: the group is skipped without raising,
      whatever its other keys hold. */
  lemma NullTitleSkipped(w: Option<Work>)
    requires !BadSummaries(w) && FirstSummary(w).title == Present(Present(Null))
    ensures Item(w) == Success(None)
  {
    assert SummaryOf(w) == Success(FirstSummary(w));
  }

  // ------------------------------------------------------------------
  // The other sources
  // ------------------------------------------------------------------

  /** `obtener_publicaciones_google_scholar`: a placeholder; every branch
      returns `[]`. */
  function ObtenerGoogleScholar(googleScholarApi: Option<string>, scholarId: Option<string>): (r: seq<Publicacion>)
    ensures r == []
  {
    if !Truthy(googleScholarApi) || !Truthy(scholarId) then [] else []
  }

  /** `_procesar_respuesta_scopus`: not implemented, returns `[]`. */
  function ProcesarScopus<D>(data: D): seq<Publicacion> {
    []
  }

  /** `obtener_publicaciones_scopus`: without an API key or an author id
      nothing is requested; otherwise a 200 response is processed. */
  function ObtenerScopus<D>(scopusApiKey: Option<string>, scopusId: Option<string>, respuesta: Http<D>)
    : (r: seq<Publicacion>)
    ensures r == []
  {
    if !Truthy(scopusApiKey) || !Truthy(scopusId) then []
    else match respuesta
      case RequestError => []
      case Response(status, data) => if status == 200 then ProcesarScopus(data) else []
  }

  /** `_procesar_xml_pubmed`: not implemented, returns `[]`. */
  function ProcesarXmlPubmed(xml: string): seq<Publicacion> {
    []
  }

  /** `_obtener_detalles_pubmed`: an empty id list requests nothing. */
  function ObtenerDetallesPubmed(pmids: seq<string>, respuesta: Http<string>): (r: seq<Publicacion>)
    ensures r == []
  {
    if |pmids| == 0 then []
    else match respuesta
      case RequestError => []
      case Response(status, text) => if status == 200 then ProcesarXmlPubmed(text) else []
  }

  /** `obtener_publicaciones_pubmed`: without a query nothing is requested;
      otherwise the ids of a 200 search response are fetched. */
  function ObtenerPubmed(pubmedQuery: Option<string>, busqueda: Http<seq<string>>, detalles: Http<string>)
    : (r: seq<Publicacion>)
    ensures r == []
  {
    if !Truthy(pubmedQuery) then []
    else match busqueda
      case RequestError => []
      case Response(status, pmids) => if status == 200 then ObtenerDetallesPubmed(pmids, detalles) else []
  }
}
