/** The application's typed settings: a table of rows keyed by `clave`,
    each holding its value as text together with the type it is read back
    as. */
module Configuracion {
  import opened PyValues

  /** The Python values a setting is stored from and read back as. */
  datatype Py = PyNone | PyInt(i: int) | PyBool(b: bool) | PyStr(s: string)

  /** What `obtener` returns: a value, or, for a `'json'` setting, the text
      handed to `json.loads` (the decoder is not modelled). */
  datatype Obtenido = Valor(v: Py) | Json(texto: string)

  /** One row of the `configuraciones` table. */
  datatype Fila = Fila(clave: string, valor: Option<string>, descripcion: Option<string>, tipo: Option<string>)

  /** `str(v)`. */
  function ToText(v: Py): string {
    match v
    case PyNone => "None"
    case PyInt(i) => IntToString(i)
    case PyBool(b) => if b then "True" else "False"
    case PyStr(s) => s
  }

  /** The index of the first row with key `clave`, or `|filas|`. */
  function IndexOf(filas: seq<Fila>, clave: string): (i: nat)
    ensures i <= |filas|
    ensures i < |filas| ==> filas[i].clave == clave
    ensures forall j :: 0 <= j < i ==> filas[j].clave != clave
  {
    if |filas| == 0 then 0
    else if filas[0].clave == clave then 0
    else 1 + IndexOf(filas[1..], clave)
  }

  /** `Configuracion.query.filter_by(clave=clave).first()`. */
  function Lookup(filas: seq<Fila>, clave: string): (r: Option<Fila>)
    ensures r.Some? ==> r.value in filas && r.value.clave == clave
    ensures r.None? <==> forall j :: 0 <= j < |filas| ==> filas[j].clave != clave
  {
    var i := IndexOf(filas, clave);
    if i < |filas| then Some(filas[i]) else None
  }

  const VALUE_ERROR := "ValueError: invalid literal for int()"
  const ATTRIBUTE_ERROR := "AttributeError: 'NoneType' object has no attribute 'lower'"

  /** The body of `obtener` once the row is found (or not). */
  function Decode(fila: Option<Fila>, default: Py): (r: Result<Obtenido>)
    ensures fila.None? ==> r == Success(Valor(default))
    ensures r.Failure? <==>
              fila.Some? && ((fila.value.tipo == Some("int") && Truthy(fila.value.valor) && ParseInt(fila.value.valor.value).None?)
                             || (fila.value.tipo == Some("bool") && fila.value.valor.None?))
    ensures r.Failure? ==> r.error == (if fila.value.tipo == Some("int") then VALUE_ERROR else ATTRIBUTE_ERROR)
  {
    match fila
    case None => Success(Valor(default))
    case Some(f) =>
      if f.tipo == Some("int") then
        if !Truthy(f.valor) then Success(Valor(default))
        else match ParseInt(f.valor.value)
          case None => Failure(VALUE_ERROR)
          case Some(n) => Success(Valor(PyInt(n)))
      else if f.tipo == Some("bool") then
        match f.valor
        case None => Failure(ATTRIBUTE_ERROR)
        case Some(s) => Success(Valor(PyBool(Lower(s) == "true")))
      else if f.tipo == Some("json") then
        if !Truthy(f.valor) then Success(Valor(default)) else Success(Json(f.valor.value))
      else
        match f.valor
        case None => Success(Valor(PyNone))
        case Some(s) => Success(Valor(PyStr(s)))
  }

  /** No two rows share a key (`clave` is a unique column). */
  predicate UniqueClaves(filas: seq<Fila>) {
    forall i, j :: 0 <= i < j < |filas| ==> filas[i].clave != filas[j].clave
  }

  /** `establecer` on the table: the existing row of the key gets the new
      text, description and type; otherwise a new row is appended. */
  function Upsert(filas: seq<Fila>, clave: string, valor: Py, descripcion: Option<string>, tipo: string): (r: seq<Fila>)
    ensures |r| == |filas| + (if Lookup(filas, clave).None? then 1 else 0)
    ensures forall j :: 0 <= j < |filas| && filas[j].clave != clave ==> r[j] == filas[j]
    ensures exists j :: 0 <= j < |r| && r[j].clave == clave && r[j].valor == Some(ToText(valor)) && r[j].tipo == Some(tipo)
  {
    var i := IndexOf(filas, clave);
    if i < |filas| then
      var u := filas[i := Fila(clave, Some(ToText(valor)), if Truthy(descripcion) then descripcion else filas[i].descripcion, Some(tipo))];
      assert u[i].clave == clave;
      u
    else
      var u := filas + [Fila(clave, Some(ToText(valor)), descripcion, Some(tipo))];
      assert u[|filas|].clave == clave;
      u
  }

  /** The settings table, updated in place by `establecer`. */
  class Store {
    var filas: seq<Fila>

    predicate Valid()
      reads this
    {
      UniqueClaves(filas)
    }

    constructor()
      ensures filas == [] && Valid()
    {
      filas := [];
    }

    /** `Configuracion.obtener(clave, default)`. */
    function Obtener(clave: string, default: Py): (r: Result<Obtenido>)
      reads this
      ensures (forall j :: 0 <= j < |filas| ==> filas[j].clave != clave) ==> r == Success(Valor(default))
      ensures r.Failure? ==> exists j :: 0 <= j < |filas| && filas[j].clave == clave
    {
      Decode(Lookup(filas, clave), default)
    }

    /** `Configuracion.establecer(clave, valor, descripcion, tipo)`: updates
        the row of `clave` field by field, or adds one; returns the row. */
    method Establecer(clave: string, valor: Py, descripcion: Option<string>, tipo: string) returns (config: Fila)
      requires Valid()
      modifies this
      ensures Valid()
      ensures filas == Upsert(old(filas), clave, valor, descripcion, tipo)
      ensures Lookup(filas, clave) == Some(config)
    {
      var i := IndexOf(filas, clave);
      if i < |filas| {
        config := filas[i];
        config := config.(valor := Some(ToText(valor)));
        config := config.(descripcion := if Truthy(descripcion) then descripcion else config.descripcion);
        config := config.(tipo := Some(tipo));
        filas := filas[i := config];
      } else {
        config := Fila(clave, Some(ToText(valor)), descripcion, Some(tipo));
        filas := filas + [config];
      }
      UpsertKeepsUnique(old(filas), clave, valor, descripcion, tipo);
      LookupAfterUpsert(old(filas), clave, valor, descripcion, tipo);
    }
  }

  /** After `establecer`, the key's row holds the new text and type; its
      description is the new one when truthy and otherwise the old one. */
  lemma LookupAfterUpsert(filas: seq<Fila>, clave: string, valor: Py, descripcion: Option<string>, tipo: string)
    ensures var before := Lookup(filas, clave);
            Lookup(Upsert(filas, clave, valor, descripcion, tipo), clave)
            == Some(Fila(clave, Some(ToText(valor)),
                         if Truthy(descripcion) || before.None? then descripcion else before.value.descripcion,
                         Some(tipo)))
  {
    var i := IndexOf(filas, clave);
    var u := Upsert(filas, clave, valor, descripcion, tipo);
    assert IndexOf(u, clave) == i by {
      IndexOfAfterWrite(filas, u, clave, i);
    }
  }

  lemma {:induction false} IndexOfAfterWrite(filas: seq<Fila>, u: seq<Fila>, clave: string, i: nat)
    requires i == IndexOf(filas, clave) && i < |u| && u[i].clave == clave
    requires forall j :: 0 <= j < i ==> u[j].clave == filas[j].clave
    ensures IndexOf(u, clave) == i
    decreases i
  {
    if i > 0 {
      assert u[0].clave == filas[0].clave;
      IndexOfAfterWrite(filas[1..], u[1..], clave, i - 1);
    }
  }

  /** `establecer` keeps at most one row per key, and adds a row only for a
      new key. */
  lemma UpsertKeepsUnique(filas: seq<Fila>, clave: string, valor: Py, descripcion: Option<string>, tipo: string)
    requires UniqueClaves(filas)
    ensures UniqueClaves(Upsert(filas, clave, valor, descripcion, tipo))
    ensures |Upsert(filas, clave, valor, descripcion, tipo)| == |filas| + (if Lookup(filas, clave).None? then 1 else 0)
  {
  }

  /** `establecer` on one key leaves every other key's row as it was. */
  lemma UpsertOthersUnchanged(filas: seq<Fila>, clave: string, valor: Py, descripcion: Option<string>, tipo: string,
                              otra: string)
    requires otra != clave
    ensures Lookup(Upsert(filas, clave, valor, descripcion, tipo), otra) == Lookup(filas, otra)
  {
    var u := Upsert(filas, clave, valor, descripcion, tipo);
    var k := IndexOf(filas, otra);
    if k < |filas| {
      IndexOfAfterWrite(filas, u, otra, k);
    } else {
      assert forall j :: 0 <= j < |u| ==> u[j].clave != otra;
    }
  }

  /** A key never set reads as the default. */
  lemma ObtenerMissing(filas: seq<Fila>, clave: string, default: Py)
    requires forall j :: 0 <= j < |filas| ==> filas[j].clave != clave
    ensures Decode(Lookup(filas, clave), default) == Success(Valor(default))
  {
  }

  /** An integer set with type `'int'` reads back as that integer. */
  lemma IntRoundTrip(filas: seq<Fila>, clave: string, n: int, descripcion: Option<string>, default: Py)
    ensures Decode(Lookup(Upsert(filas, clave, PyInt(n), descripcion, "int"), clave), default) == Success(Valor(PyInt(n)))
  {
    LookupAfterUpsert(filas, clave, PyInt(n), descripcion, "int");
    ParseIntOfIntToString(n);
    assert |IntToString(n)| > 0;
  }

  /** A boolean set with type `'bool'` reads back as that boolean. */
  lemma BoolRoundTrip(filas: seq<Fila>, clave: string, b: bool, descripcion: Option<string>, default: Py)
    ensures Decode(Lookup(Upsert(filas, clave, PyBool(b), descripcion, "bool"), clave), default) == Success(Valor(PyBool(b)))
  {
    LookupAfterUpsert(filas, clave, PyBool(b), descripcion, "bool");
    if b {
      assert Lower("True") == "true";
    } else {
      assert Lower("False")[0] == 'f';
    }
  }

  /** A text set with type `'string'` reads back unchanged; so does any
      value set with a type other than `'int'`, `'bool'` or `'json'`,
      as its `str`. */
  lemma StringRoundTrip(filas: seq<Fila>, clave: string, valor: Py, descripcion: Option<string>, tipo: string,
                        default: Py)
    requires tipo != "int" && tipo != "bool" && tipo != "json"
    ensures Decode(Lookup(Upsert(filas, clave, valor, descripcion, tipo), clave), default) == Success(Valor(PyStr(ToText(valor))))
  {
    LookupAfterUpsert(filas, clave, valor, descripcion, tipo);
  }
}
