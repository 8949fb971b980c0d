/** Importing publications fetched from ORCID, Scopus and PubMed into the
    `articulos` table without duplicating them. The table is a store object
    whose row sequence the import appends to; a lookup sees every row added
    before it, including rows added earlier in the same import (the session
    flushes pending rows before each query). */
module SyncController {
  import opened PyValues
  import opened Records

  /** A key of an incoming publication dict: missing, present with `None`,
      or present with a value. */
  datatype Field<T> = Missing | Null | Present(value: T)

  /** `pub.get(key, default)`. */
  function Get<T>(f: Field<T>, default: Option<T>): Option<T> {
    match f
    case Missing => default
    case Null => None
    case Present(v) => Some(v)
  }

  /** One publication as a source hands it over. */
  datatype Pub = Pub(titulo: Field<string>, doi: Field<string>, revista: Field<string>, anio: Field<string>,
                     autores: Field<string>)

  /** A row of the `articulos` table. */
  datatype Row = Row(docenteId: int, titulo: Option<string>, revista: Option<string>, anio: Option<string>,
                     doi: Option<string>, autores: Option<string>, estado: string, indexacion: string)

  /** The DOI the import checks and stores: the stripped text of a truthy
      `doi`, or `None` when it is missing, empty or only whitespace. */
  function NormalDoi(pub: Pub): (r: Option<string>)
    ensures r.Some? ==> pub.doi.Present? && r.value != "" && |r.value| <= |pub.doi.value|
    ensures r.Some? ==> !IsSpace(r.value[0]) && !IsSpace(r.value[|r.value| - 1])
    ensures r.None? <==> !(pub.doi.Present? && Strip(pub.doi.value) != "")
  {
    if pub.doi.Present? && pub.doi.value != "" && Strip(pub.doi.value) != "" then Some(Strip(pub.doi.value))
    else None
  }

  /** `pub.get('titulo', 'Sin título')`. */
  function Titulo(pub: Pub): Option<string> {
    Get(pub.titulo, Some("Sin título"))
  }

  /** A publication with a DOI is a duplicate when any row, of any docente,
      has that DOI; one without is a duplicate when a row of the same docente
      has the same title. */
  predicate IsDuplicate(rows: seq<Row>, docenteId: int, pub: Pub) {
    var doi := NormalDoi(pub);
    if doi.Some? then exists i :: 0 <= i < |rows| && rows[i].doi == doi
    else exists i :: 0 <= i < |rows| && rows[i].docenteId == docenteId && rows[i].titulo == Titulo(pub)
  }

  /** The row an accepted publication becomes. */
  function NewRow(docenteId: int, pub: Pub, fuente: string): Row {
    Row(docenteId, Titulo(pub), Get(pub.revista, Some("")), Get(pub.anio, None), NormalDoi(pub),
        Get(pub.autores, Some("")), "Publicado", fuente)
  }

  /** The message of the `TypeError` that slicing a `None` title raises. */
  const TITLE_ERROR := "'NoneType' object is not subscriptable"

  /** Handling `pub` raises: its title is `None` and it is not a duplicate
      by DOI, so the log line of the title-duplicate or new-row branch
      slices `None`. A DOI duplicate logs only its DOI. */
  predicate RaisesOn(rows: seq<Row>, docenteId: int, pub: Pub) {
    Titulo(pub).None? && !(NormalDoi(pub).Some? && IsDuplicate(rows, docenteId, pub))
  }

  /** The table after an import, the two counters, and the error that
      stopped it, if any. */
  datatype Outcome = Outcome(rows: seq<Row>, agregadas: nat, duplicadas: nat, error: Option<string>)

  /** `_agregar_publicaciones` on the table `rows`: each publication, in
      order, is counted as a duplicate or appended as a new row, until one
      raises; the rows added before it stay in the session. */
  function Agregar(rows: seq<Row>, docenteId: int, pubs: seq<Pub>, fuente: string): (o: Outcome)
    ensures o.error.None? ==> o.agregadas + o.duplicadas == |pubs|
    ensures o.error.Some? ==> o.error.value == TITLE_ERROR && o.agregadas + o.duplicadas < |pubs|
    ensures |o.rows| == |rows| + o.agregadas
    ensures o.rows[..|rows|] == rows
    decreases |pubs|
  {
    if |pubs| == 0 then Outcome(rows, 0, 0, None)
    else
      Step(Agregar(rows, docenteId, pubs[..|pubs| - 1], fuente), docenteId, pubs[|pubs| - 1], fuente)
  }

  /** One turn of the loop: skip after an error, raise, count a duplicate,
      or append a new row. */
  function Step(prev: Outcome, docenteId: int, pub: Pub, fuente: string): Outcome {
    if prev.error.Some? then prev
    else if RaisesOn(prev.rows, docenteId, pub) then prev.(error := Some(TITLE_ERROR))
    else if IsDuplicate(prev.rows, docenteId, pub) then prev.(duplicadas := prev.duplicadas + 1)
    else Outcome(prev.rows + [NewRow(docenteId, pub, fuente)], prev.agregadas + 1, prev.duplicadas, None)
  }

  /** `Agregar` on one more publication is one more `Step`. */
  lemma AgregarSnoc(rows: seq<Row>, docenteId: int, pubs: seq<Pub>, fuente: string, k: nat)
    requires k < |pubs|
    ensures Agregar(rows, docenteId, pubs[..k + 1], fuente)
            == Step(Agregar(rows, docenteId, pubs[..k], fuente), docenteId, pubs[k], fuente)
  {
    assert pubs[..k + 1][..k] == pubs[..k];
  }

  /** Once a prefix of the publications raises, the import ends there. */
  lemma {:induction false} ErrorStops(rows: seq<Row>, docenteId: int, pubs: seq<Pub>, fuente: string, k: nat)
    requires k <= |pubs| && Agregar(rows, docenteId, pubs[..k], fuente).error.Some?
    ensures Agregar(rows, docenteId, pubs, fuente) == Agregar(rows, docenteId, pubs[..k], fuente)
    decreases |pubs| - k
  {
    if k < |pubs| {
      assert pubs[..k + 1][..k] == pubs[..k];
      ErrorStops(rows, docenteId, pubs, fuente, k + 1);
    } else {
      assert pubs[..k] == pubs;
    }
  }

  /** A publication with no DOI and a `None` title stops the import,
      whatever the table holds. */
  lemma NullTitleRaises(rows: seq<Row>, docenteId: int, pub: Pub, fuente: string)
    requires pub.titulo.Null? && NormalDoi(pub).None?
    ensures Agregar(rows, docenteId, [pub], fuente) == Outcome(rows, 0, 0, Some(TITLE_ERROR))
  {
    assert [pub][..0] == [];
  }

  // ------------------------------------------------------------------
  // The store and the import loop
  // ------------------------------------------------------------------

  /** The `articulos` table, as the session sees it. */
  class ArticleStore {
    var rows: seq<Row>

    constructor(initial: seq<Row>)
      ensures rows == initial
    {
      rows := initial;
    }

    /** `Articulo.query.filter_by(doi=doi).first()` finds a row. */
    predicate HasDoi(doi: string)
      reads this
    {
      exists i :: 0 <= i < |rows| && rows[i].doi == Some(doi)
    }

    /** `Articulo.query.filter_by(docente_id=..., titulo=...).first()` finds a row. */
    predicate HasTitle(docenteId: int, titulo: Option<string>)
      reads this
    {
      exists i :: 0 <= i < |rows| && rows[i].docenteId == docenteId && rows[i].titulo == titulo
    }

    /** `db.session.add(articulo)`. */
    method Add(r: Row)
      modifies this
      ensures rows == old(rows) + [r]
    {
      rows := rows + [r];
    }

    /** The request ends without `db.session.commit()`: the session is
        removed and the rows added since `committed` are dropped. */
    method Rollback(committed: seq<Row>)
      modifies this
      ensures rows == committed
    {
      rows := committed;
    }
  }

  /** One turn of the loop of `_agregar_publicaciones` on `pub`, with the
      counters so far; `error` is the exception the turn raised. */
  method AgregarUna(store: ArticleStore, docenteId: int, pub: Pub, fuente: string, agregadas: nat, duplicadas: nat)
    returns (a: nat, d: nat, error: Option<string>)
    modifies store
    ensures Outcome(store.rows, a, d, error)
            == Step(Outcome(old(store.rows), agregadas, duplicadas, None), docenteId, pub, fuente)
  {
    a, d, error := agregadas, duplicadas, None;
    var doi := if pub.doi.Present? && pub.doi.value != "" then Some(Strip(pub.doi.value)) else None;
    var titulo := Get(pub.titulo, Some("Sin título"));
    var conDoi := doi.Some? && doi.value != "";
    assert conDoi <==> NormalDoi(pub).Some?;
    assert conDoi ==> doi == NormalDoi(pub);
    // the lookup by DOI, or by docente and title when there is no DOI
    var existente := if conDoi then store.HasDoi(doi.value) else store.HasTitle(docenteId, titulo);
    assert existente == IsDuplicate(store.rows, docenteId, pub);
    if conDoi && existente {
      return a, d + 1, None;
    }
    if titulo.None? {
      // the log line slices the title
      return a, d, Some(TITLE_ERROR);
    }
    if existente {
      return a, d + 1, None;
    }
    var articulo := Row(docenteId, titulo, Get(pub.revista, Some("")), Get(pub.anio, None),
                        if conDoi then doi else None, Get(pub.autores, Some("")), "Publicado", fuente);
    store.Add(articulo);
    a := a + 1;
  }

  /** `_agregar_publicaciones`: the loop with its two counters; `error` is
      the exception that left the loop. */
  method AgregarPublicaciones(store: ArticleStore, docenteId: int, pubs: seq<Pub>, fuente: string)
    returns (agregadas: nat, duplicadas: nat, error: Option<string>)
    modifies store
    ensures Outcome(store.rows, agregadas, duplicadas, error) == Agregar(old(store.rows), docenteId, pubs, fuente)
  {
    agregadas, duplicadas, error := 0, 0, None;
    ghost var rows0 := store.rows;
    for k := 0 to |pubs|
      invariant Agregar(rows0, docenteId, pubs[..k], fuente) == Outcome(store.rows, agregadas, duplicadas, None)
      invariant error.None?
    {
      AgregarSnoc(rows0, docenteId, pubs, fuente, k);
      agregadas, duplicadas, error := AgregarUna(store, docenteId, pubs[k], fuente, agregadas, duplicadas);
      if error.Some? {
        ErrorStops(rows0, docenteId, pubs, fuente, k + 1);
        return;
      }
    }
    assert pubs[..|pubs|] == pubs;
  }

  // ------------------------------------------------------------------
  // Properties of the import
  // ------------------------------------------------------------------

  /** Every row of `s` from index `from` on is published, indexed by
      `fuente` and owned by the docente. */
  predicate Tagged(s: seq<Row>, from: nat, docenteId: int, fuente: string) {
    forall i :: from <= i < |s| ==>
      s[i].estado == "Publicado" && s[i].indexacion == fuente && s[i].docenteId == docenteId
  }

  /** Every row the import adds is published, indexed by its source and
      owned by the docente, whether or not the import stopped early. */
  lemma {:induction false} AddedRowsTagged(rows: seq<Row>, docenteId: int, pubs: seq<Pub>, fuente: string)
    ensures Tagged(Agregar(rows, docenteId, pubs, fuente).rows, |rows|, docenteId, fuente)
    decreases |pubs|
  {
    if |pubs| > 0 {
      var prev := Agregar(rows, docenteId, pubs[..|pubs| - 1], fuente);
      var pub := pubs[|pubs| - 1];
      AddedRowsTagged(rows, docenteId, pubs[..|pubs| - 1], fuente);
      if prev.error.None? && !RaisesOn(prev.rows, docenteId, pub) && !IsDuplicate(prev.rows, docenteId, pub) {
        var r := NewRow(docenteId, pub, fuente);
        var s := prev.rows + [r];
        assert Agregar(rows, docenteId, pubs, fuente).rows == s;
        forall i | |rows| <= i < |s|
          ensures s[i].estado == "Publicado" && s[i].indexacion == fuente && s[i].docenteId == docenteId
        {
          if i < |prev.rows| {
            assert s[i] == prev.rows[i];
          }
        }
      }
    }
  }

  /** No two DOI rows share a DOI, and no two DOI-less rows share docente and title. */
  predicate UniqueKeys(rows: seq<Row>) {
    forall i, j :: 0 <= i < j < |rows| ==>
      (rows[i].doi.Some? ==> rows[i].doi != rows[j].doi)
      && (rows[i].doi.None? && rows[j].doi.None? ==>
            rows[i].docenteId != rows[j].docenteId || rows[i].titulo != rows[j].titulo)
  }

  /** The import never breaks the uniqueness of the table's keys. */
  lemma {:induction false} AgregarKeepsKeysUnique(rows: seq<Row>, docenteId: int, pubs: seq<Pub>, fuente: string)
    requires UniqueKeys(rows)
    ensures UniqueKeys(Agregar(rows, docenteId, pubs, fuente).rows)
    decreases |pubs|
  {
    if |pubs| > 0 {
      var prev := Agregar(rows, docenteId, pubs[..|pubs| - 1], fuente);
      AgregarKeepsKeysUnique(rows, docenteId, pubs[..|pubs| - 1], fuente);
      var pub := pubs[|pubs| - 1];
      if prev.error.None? && !RaisesOn(prev.rows, docenteId, pub) && !IsDuplicate(prev.rows, docenteId, pub) {
        AppendKeepsKeysUnique(prev.rows, docenteId, pub, fuente);
      }
    }
  }

  lemma AppendKeepsKeysUnique(rows: seq<Row>, docenteId: int, pub: Pub, fuente: string)
    requires UniqueKeys(rows) && !IsDuplicate(rows, docenteId, pub)
    ensures UniqueKeys(rows + [NewRow(docenteId, pub, fuente)])
  {
    var r := NewRow(docenteId, pub, fuente);
    var s := rows + [r];
    forall i, j | 0 <= i < j < |s|
      ensures (s[i].doi.Some? ==> s[i].doi != s[j].doi)
              && (s[i].doi.None? && s[j].doi.None? ==> s[i].docenteId != s[j].docenteId || s[i].titulo != s[j].titulo)
    {
      if j == |rows| {
        assert s[i] == rows[i] && s[j] == r;
      }
    }
  }

  /** A duplicate stays one when the table grows. */
  lemma DuplicateStaysDuplicate(rows: seq<Row>, r: Row, docenteId: int, pub: Pub)
    requires IsDuplicate(rows, docenteId, pub)
    ensures IsDuplicate(rows + [r], docenteId, pub)
  {
    var s := rows + [r];
    if NormalDoi(pub).Some? {
      var i :| 0 <= i < |rows| && rows[i].doi == NormalDoi(pub);
      assert s[i] == rows[i];
    } else {
      var i :| 0 <= i < |rows| && rows[i].docenteId == docenteId && rows[i].titulo == Titulo(pub);
      assert s[i] == rows[i];
    }
  }

  /** A publication a second import would skip without raising: a
      duplicate whose title, or whose DOI, lets it be logged. */
  predicate Settled(rows: seq<Row>, docenteId: int, pub: Pub) {
    IsDuplicate(rows, docenteId, pub) && !RaisesOn(rows, docenteId, pub)
  }

  /** A settled publication stays settled when the table grows. */
  lemma SettledStays(rows: seq<Row>, r: Row, docenteId: int, pub: Pub)
    requires Settled(rows, docenteId, pub)
    ensures Settled(rows + [r], docenteId, pub)
  {
    DuplicateStaysDuplicate(rows, r, docenteId, pub);
  }

  /** After an import that ran to the end, every publication of it is a
      duplicate of some row, and one that handling again does not raise. */
  lemma {:induction false} AgregarCoversInput(rows: seq<Row>, docenteId: int, pubs: seq<Pub>, fuente: string)
    ensures var o := Agregar(rows, docenteId, pubs, fuente);
            o.error.None? ==> forall p :: p in pubs ==> Settled(o.rows, docenteId, p)
    decreases |pubs|
  {
    if |pubs| > 0 {
      var init, pub := pubs[..|pubs| - 1], pubs[|pubs| - 1];
      var prev := Agregar(rows, docenteId, init, fuente);
      AgregarCoversInput(rows, docenteId, init, fuente);
      assert pubs == init + [pub];
      if prev.error.None? && !RaisesOn(prev.rows, docenteId, pub) && !IsDuplicate(prev.rows, docenteId, pub) {
        var r := NewRow(docenteId, pub, fuente);
        var s := prev.rows + [r];
        forall p | p in init
          ensures Settled(s, docenteId, p)
        {
          SettledStays(prev.rows, r, docenteId, p);
        }
        assert s[|prev.rows|] == r;
        assert Titulo(pub).Some?;
      }
    }
  }

  /** Publications that are all settled add nothing and raise nothing. */
  lemma {:induction false} AllDuplicatesAddNothing(rows: seq<Row>, docenteId: int, pubs: seq<Pub>, fuente: string)
    requires forall p :: p in pubs ==> Settled(rows, docenteId, p)
    ensures Agregar(rows, docenteId, pubs, fuente) == Outcome(rows, 0, |pubs|, None)
    decreases |pubs|
  {
    if |pubs| > 0 {
      AllDuplicatesAddNothing(rows, docenteId, pubs[..|pubs| - 1], fuente);
      assert pubs[|pubs| - 1] in pubs;
    }
  }

  /** Importing the same publications a second time, after an import that
      ran to the end, adds nothing and counts every one as a duplicate. */
  lemma SecondImportAddsNothing(rows: seq<Row>, docenteId: int, pubs: seq<Pub>, fuente: string)
    ensures var first := Agregar(rows, docenteId, pubs, fuente);
            first.error.None? ==> Agregar(first.rows, docenteId, pubs, fuente) == Outcome(first.rows, 0, |pubs|, None)
  {
    var first := Agregar(rows, docenteId, pubs, fuente);
    if first.error.None? {
      AgregarCoversInput(rows, docenteId, pubs, fuente);
      AllDuplicatesAddNothing(first.rows, docenteId, pubs, fuente);
    }
  }

  // ------------------------------------------------------------------
  // Importing from every configured source
  // ------------------------------------------------------------------

  datatype Flash = Flash(category: string, message: string)

  /** Where a route redirects to, with the messages it flashes on the way. */
  datatype SyncResponse = SyncResponse(flashes: seq<Flash>, target: string)

  /** What the three sources returned, and the fetch errors they reported. */
  datatype Resultados = Resultados(orcid: seq<Pub>, scopus: seq<Pub>, pubmed: seq<Pub>, errores: seq<string>)

  predicate HasSourceId(d: Docente) {
    Truthy(d.orcid) || Truthy(d.scopusAuthorId) || Truthy(d.pubmedQuery)
  }

  /** The early returns of `sync_todas`: no profile, or no source configured. */
  function Guard(docente: Option<Docente>): Option<SyncResponse> {
    if docente.None? then Some(SyncResponse([Flash("warning", "Por favor completa tu perfil primero")], "docente.perfil"))
    else if !HasSourceId(docente.value) then
      Some(SyncResponse([Flash("warning", "No tienes ningún ID configurado. Agrégalos en tu perfil.")], "docente.perfil"))
    else None
  }

  /** The error `APIExternaService(docente)` raises: the constructor takes no argument. */
  const INIT_ERROR := "APIExternaService.__init__() takes 1 positional argument but 2 were given"

  /** `sync_todas` as written: past the guards it constructs the service
      with an argument, which raises, and the handler flashes the error. */
  function SyncTodasAsWritten(docente: Option<Docente>): SyncResponse {
    var g := Guard(docente);
    if g.Some? then g.value else SyncResponse([Flash("danger", "❌ Error: " + INIT_ERROR)], "sync.index")
  }

  /** As written, no import ever runs: a docente with a source configured
      gets the constructor's error and nothing else. */
  lemma AsWrittenSyncNeverImports(d: Docente)
    requires HasSourceId(d)
    ensures SyncTodasAsWritten(Some(d)).flashes == [Flash("danger", "❌ Error: " + INIT_ERROR)]
    ensures forall f :: f in SyncTodasAsWritten(Some(d)).flashes ==> f.category == "danger"
  {
  }

  /** The imports in source order, ORCID, then Scopus, then PubMed, ending
      with the first one that raises. */
  function SyncAll(rows: seq<Row>, docenteId: int, res: Resultados): (outs: seq<Outcome>)
    ensures 1 <= |outs| <= 3
    ensures forall i :: 0 <= i < |outs| - 1 ==> outs[i].error.None?
    ensures outs[|outs| - 1].error.None? ==> |outs| == 3
  {
    var o1 := Agregar(rows, docenteId, res.orcid, "ORCID");
    if o1.error.Some? then [o1]
    else
      var o2 := Agregar(o1.rows, docenteId, res.scopus, "Scopus");
      if o2.error.Some? then [o1, o2]
      else [o1, o2, Agregar(o2.rows, docenteId, res.pubmed, "PubMed")]
  }

  /** The flashes of a run with the given totals, source messages and errors. */
  function SummaryFlashes(totalAgregadas: nat, totalDuplicadas: nat, mensajes: seq<string>, errores: seq<string>)
    : seq<Flash>
  {
    (if totalAgregadas > 0
     then [Flash("success", "✅ " + IntToString(totalAgregadas) + " nuevas publicaciones importadas ("
                             + Join(", ", mensajes) + ")")]
     else [])
    + (if totalDuplicadas > 0
       then [Flash("info", "ℹ️ " + IntToString(totalDuplicadas) + " publicaciones ya existían (no duplicadas)")]
       else [])
    + ErrorFlashes(errores)
  }

  function ErrorFlashes(errores: seq<string>): (fs: seq<Flash>)
    ensures |fs| == |errores|
    ensures forall i :: 0 <= i < |errores| ==> fs[i] == Flash("warning", "⚠️ " + errores[i])
  {
    if |errores| == 0 then [] else ErrorFlashes(errores[..|errores| - 1]) + [Flash("warning", "⚠️ " + errores[|errores| - 1])]
  }

  /** `f"{fuente}: {agregadas}"` for a source that added something. */
  function Mensaje(fuente: string, o: Outcome): seq<string> {
    if o.agregadas > 0 then [fuente + ": " + IntToString(o.agregadas)] else []
  }

  /** The parts for the sources that added something, in source order. */
  function Mensajes(outs: seq<Outcome>): seq<string>
    requires |outs| == 3
  {
    Mensaje("ORCID", outs[0]) + Mensaje("Scopus", outs[1]) + Mensaje("PubMed", outs[2])
  }

  /** One source of `sync_todas`: import it when it returned anything;
      `err` is the exception the import raised. */
  method SyncSource(store: ArticleStore, docenteId: int, pubs: seq<Pub>, fuente: string,
                    totalAgregadas: nat, totalDuplicadas: nat, mensajes: seq<string>)
    returns (ta: nat, td: nat, ms: seq<string>, err: Option<string>)
    modifies store
    ensures var o := Agregar(old(store.rows), docenteId, pubs, fuente);
            store.rows == o.rows && err == o.error
            && ta == totalAgregadas + o.agregadas && td == totalDuplicadas + o.duplicadas
            && ms == mensajes + Mensaje(fuente, o)
  {
    ta, td, ms, err := totalAgregadas, totalDuplicadas, mensajes, None;
    if |pubs| > 0 {
      var agregadas, duplicadas;
      agregadas, duplicadas, err := AgregarPublicaciones(store, docenteId, pubs, fuente);
      ta := ta + agregadas;
      td := td + duplicadas;
      if agregadas > 0 {
        ms := ms + [fuente + ": " + IntToString(agregadas)];
      }
    }
  }

  function TotalAgregadas(outs: seq<Outcome>): nat
    requires |outs| == 3
  {
    outs[0].agregadas + outs[1].agregadas + outs[2].agregadas
  }

  function TotalDuplicadas(outs: seq<Outcome>): nat
    requires |outs| == 3
  {
    outs[0].duplicadas + outs[1].duplicadas + outs[2].duplicadas
  }

  /** The imports of `sync_todas`, each run only when its source returned
      something, with the running totals and source messages; an exception
      in one import skips the rest. */
  method ImportAll(store: ArticleStore, docenteId: int, resultados: Resultados)
    returns (ta: nat, td: nat, ms: seq<string>, err: Option<string>)
    modifies store
    ensures var outs := SyncAll(old(store.rows), docenteId, resultados);
            store.rows == outs[|outs| - 1].rows && err == outs[|outs| - 1].error
            && (err.None? ==> ta == TotalAgregadas(outs) && td == TotalDuplicadas(outs) && ms == Mensajes(outs))
  {
    ghost var o1 := Agregar(store.rows, docenteId, resultados.orcid, "ORCID");
    ghost var o2 := Agregar(o1.rows, docenteId, resultados.scopus, "Scopus");
    ghost var o3 := Agregar(o2.rows, docenteId, resultados.pubmed, "PubMed");
    ta, td, ms, err := SyncSource(store, docenteId, resultados.orcid, "ORCID", 0, 0, []);
    if err.Some? {
      return;
    }
    assert store.rows == o1.rows && ms == Mensaje("ORCID", o1);
    ta, td, ms, err := SyncSource(store, docenteId, resultados.scopus, "Scopus", ta, td, ms);
    if err.Some? {
      return;
    }
    assert store.rows == o2.rows;
    ta, td, ms, err := SyncSource(store, docenteId, resultados.pubmed, "PubMed", ta, td, ms);
    assert ms == Mensaje("ORCID", o1) + Mensaje("Scopus", o2) + Mensaje("PubMed", o3);
  }

  /** `sync_todas` with the service constructed as intended and `resultados`
      the three sources' answers: the guards, then ORCID, Scopus and PubMed
      imported in that order, then the commit and the summary flashes. An
      exception in an import skips the commit, so the rows added before it
      are dropped with the session, and flashes the error. */
  method SyncTodas(store: ArticleStore, docente: Option<Docente>, resultados: Resultados)
    returns (response: SyncResponse)
    modifies store
    ensures Guard(docente).Some? ==> response == Guard(docente).value && store.rows == old(store.rows)
    ensures Guard(docente).None? ==>
              var outs := SyncAll(old(store.rows), docente.value.id, resultados);
              if outs[|outs| - 1].error.Some? then
                store.rows == old(store.rows)
                && response == SyncResponse([Flash("danger", "❌ Error: " + TITLE_ERROR)], "sync.index")
              else
                store.rows == outs[2].rows
                && response == SyncResponse(
                     SummaryFlashes(TotalAgregadas(outs), TotalDuplicadas(outs), Mensajes(outs), resultados.errores),
                     "sync.index")
  {
    var g := Guard(docente);
    if g.Some? {
      return g.value;
    }
    var committed := store.rows;
    var ta, td, ms, err := ImportAll(store, docente.value.id, resultados);
    if err.Some? {
      store.Rollback(committed);
      return SyncResponse([Flash("danger", "❌ Error: " + err.value)], "sync.index");
    }
    response := SyncResponse(SummaryFlashes(ta, td, ms, resultados.errores), "sync.index");
  }

  /** The table after the imports keeps every row it had, and when no
      import raised, the totals of `sync_todas` account for every
      publication of every source and for every row added. */
  lemma SyncAllTotals(rows: seq<Row>, docenteId: int, res: Resultados)
    ensures var outs := SyncAll(rows, docenteId, res);
            outs[|outs| - 1].rows[..|rows|] == rows
            && (outs[|outs| - 1].error.None? ==>
                  TotalAgregadas(outs) + TotalDuplicadas(outs) == |res.orcid| + |res.scopus| + |res.pubmed|
                  && |outs[2].rows| == |rows| + TotalAgregadas(outs))
  {
    var outs := SyncAll(rows, docenteId, res);
    if |outs| >= 2 {
      assert outs[1].rows[..|outs[0].rows|] == outs[0].rows;
    }
    if |outs| == 3 {
      assert outs[2].rows[..|outs[1].rows|] == outs[1].rows;
    }
  }

  /** Without any source configured nothing is fetched or imported. */
  lemma NoSourceImportsNothing(d: Docente)
    requires !HasSourceId(d)
    ensures Guard(Some(d)) == Some(SyncResponse([Flash("warning", "No tienes ningún ID configurado. Agrégalos en tu perfil.")],
                                                 "docente.perfil"))
  {
  }
}
