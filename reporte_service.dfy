/** The publication statistics of the general report: the total and
    indexed counts and the per-year histogram. The publication table is
    a sequence of rows. */
module ReporteService {
  import opened PyValues

  /** The columns of a publication the statistics read. */
  datatype Publicacion = Publicacion(anio: Option<int>, indizada: bool)

  /** The number of rows whose year is `y`. */
  function CountYear(pubs: seq<Publicacion>, y: int): (n: nat)
    ensures n <= |pubs|
  {
    if |pubs| == 0 then 0
    else CountYear(pubs[..|pubs| - 1], y) + (if pubs[|pubs| - 1].anio == Some(y) then 1 else 0)
  }

  /** The number of rows with a truthy year (neither `NULL` nor 0). */
  function CountDated(pubs: seq<Publicacion>): (n: nat)
    ensures n <= |pubs|
  {
    if |pubs| == 0 then 0
    else CountDated(pubs[..|pubs| - 1]) + (if IntTruthy(pubs[|pubs| - 1].anio) then 1 else 0)
  }

  /** `Publicacion.query.filter_by(indizada=True).count()`. */
  function CountIndizadas(pubs: seq<Publicacion>): (n: nat)
    ensures n <= |pubs|
    ensures n == |pubs| <==> forall i :: 0 <= i < |pubs| ==> pubs[i].indizada
  {
    if |pubs| == 0 then 0
    else
      var init := pubs[..|pubs| - 1];
      assert forall i :: 0 <= i < |init| ==> init[i] == pubs[i];
      CountIndizadas(init) + (if pubs[|pubs| - 1].indizada then 1 else 0)
  }

  /** `d.get(k, 0)`. */
  function Get(h: map<int, nat>, k: int): nat {
    if k in h then h[k] else 0
  }

  /** `publicaciones_por_año` after the rows of `pubs`: each truthy year
      counts one more. */
  function Histograma(pubs: seq<Publicacion>): (h: map<int, nat>)
    ensures forall y :: y in h ==> y != 0 && 0 < h[y] <= |pubs|
  {
    if |pubs| == 0 then map[]
    else
      var h := Histograma(pubs[..|pubs| - 1]);
      var a := pubs[|pubs| - 1].anio;
      if IntTruthy(a) then h[a.value := Get(h, a.value) + 1] else h
  }

  /** The histogram loop. The query already drops `NULL` years; the loop's
      `if año` drops the year 0 as well. */
  method PublicacionesPorAnio(pubs: seq<Publicacion>) returns (porAnio: map<int, nat>)
    ensures porAnio == Histograma(pubs)
  {
    porAnio := map[];
    for k := 0 to |pubs|
      invariant porAnio == Histograma(pubs[..k])
    {
      assert pubs[..k + 1][..k] == pubs[..k];
      var anio := pubs[k].anio;
      if anio.Some? && anio.value != 0 {
        porAnio := porAnio[anio.value := Get(porAnio, anio.value) + 1];
      }
    }
    assert pubs[..|pubs|] == pubs;
  }

  /** Each key maps to the number of rows with that year, and the keys are
      exactly the truthy years that occur. */
  lemma {:induction false} HistogramaCounts(pubs: seq<Publicacion>, y: int)
    ensures y in Histograma(pubs) <==> y != 0 && CountYear(pubs, y) > 0
    ensures Get(Histograma(pubs), y) == if y == 0 then 0 else CountYear(pubs, y)
    decreases |pubs|
  {
    if |pubs| > 0 {
      HistogramaCounts(pubs[..|pubs| - 1], y);
    }
  }

  /** The keys are exactly the truthy years of the rows. */
  lemma HistogramaKeys(pubs: seq<Publicacion>, y: int)
    ensures y in Histograma(pubs) <==> y != 0 && exists i :: 0 <= i < |pubs| && pubs[i].anio == Some(y)
  {
    HistogramaCounts(pubs, y);
    CountYearPositive(pubs, y);
  }

  lemma {:induction false} CountYearPositive(pubs: seq<Publicacion>, y: int)
    ensures CountYear(pubs, y) > 0 <==> exists i :: 0 <= i < |pubs| && pubs[i].anio == Some(y)
    decreases |pubs|
  {
    if |pubs| > 0 {
      var init := pubs[..|pubs| - 1];
      CountYearPositive(init, y);
      if exists i :: 0 <= i < |init| && init[i].anio == Some(y) {
        var i :| 0 <= i < |init| && init[i].anio == Some(y);
        assert pubs[i] == init[i];
      }
      if exists i :: 0 <= i < |pubs| && pubs[i].anio == Some(y) {
        var i :| 0 <= i < |pubs| && pubs[i].anio == Some(y);
        if i < |init| {
          assert init[i] == pubs[i];
        }
      }
    }
  }

  /** The sum of the histogram's values over the years `ys`. */
  function SumOver(h: map<int, nat>, ys: seq<int>): nat {
    if |ys| == 0 then 0 else SumOver(h, ys[..|ys| - 1]) + Get(h, ys[|ys| - 1])
  }

  predicate Distinct(ys: seq<int>) {
    forall i, j :: 0 <= i < j < |ys| ==> ys[i] != ys[j]
  }

  /** Counting one more row of year `y` adds one to a sum over distinct
      years that includes `y`, and nothing to one that does not. */
  lemma {:induction false} SumOverIncrement(h: map<int, nat>, y: int, ys: seq<int>)
    requires Distinct(ys)
    ensures SumOver(h[y := Get(h, y) + 1], ys) == SumOver(h, ys) + (if y in ys then 1 else 0)
    decreases |ys|
  {
    if |ys| > 0 {
      var init := ys[..|ys| - 1];
      SumOverIncrement(h, y, init);
      assert ys == init + [ys[|ys| - 1]];
      if ys[|ys| - 1] == y {
        assert y !in init;
      }
    }
  }

  /** The histogram's values add up to the number of rows with a truthy
      year: summed over any list of distinct years covering its keys. */
  lemma {:induction false} HistogramaSum(pubs: seq<Publicacion>, ys: seq<int>)
    requires Distinct(ys) && forall y :: y in Histograma(pubs) ==> y in ys
    ensures SumOver(Histograma(pubs), ys) == CountDated(pubs)
    decreases |pubs|
  {
    if |pubs| == 0 {
      SumOverEmpty(ys);
    } else {
      var init := pubs[..|pubs| - 1];
      var h := Histograma(init);
      var a := pubs[|pubs| - 1].anio;
      if IntTruthy(a) {
        assert forall y :: y in h ==> y in Histograma(pubs);
        HistogramaSum(init, ys);
        SumOverIncrement(h, a.value, ys);
      } else {
        HistogramaSum(init, ys);
      }
    }
  }

  lemma {:induction false} SumOverEmpty(ys: seq<int>)
    ensures SumOver(map[], ys) == 0
    decreases |ys|
  {
    if |ys| > 0 {
      SumOverEmpty(ys[..|ys| - 1]);
    }
  }

  /** The publication part of `obtener_estadisticas_generales`. */
  datatype Estadisticas = Estadisticas(totalPublicaciones: nat, publicacionesIndizadas: nat, porAnio: map<int, nat>)

  method EstadisticasPublicaciones(pubs: seq<Publicacion>) returns (e: Estadisticas)
    ensures e == Estadisticas(|pubs|, CountIndizadas(pubs), Histograma(pubs))
    ensures e.publicacionesIndizadas <= e.totalPublicaciones
  {
    var porAnio := PublicacionesPorAnio(pubs);
    e := Estadisticas(|pubs|, CountIndizadas(pubs), porAnio);
  }
}
