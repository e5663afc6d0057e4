/** A medical specialty and the weekdays on which it is offered
    (`modelo/modeloespecialidad.py`). The object is never changed after
    construction, so it is a value here. */
module ModeloEspecialidad {
  import opened Wrappers
  import opened Texto
  import opened Calendario
  import opened ModeloExcepciones

  /** `tipo` is the name as given; `dias` are the given days folded to small letters. */
  datatype Especialidad = Especialidad(tipo: string, dias: seq<string>)

  /** What every constructed specialty satisfies. */
  ghost predicate Valida(e: Especialidad)
  {
    && e.tipo != []
    && e.dias != []
    && forall i :: 0 <= i < |e.dias| ==> e.dias[i] in DiasValidos
  }

  /** The validation loop of the constructor: every day, folded, is one of
      the seven canonical names. */
  function TodosLosDiasValidos(dias: seq<string>): (r: bool)
    ensures r <==> forall i :: 0 <= i < |dias| ==> Minuscula(dias[i]) in DiasValidos
  {
    if dias == [] then true
    else Minuscula(dias[0]) in DiasValidos && TodosLosDiasValidos(dias[1..])
  }

  /** The stored days: the given ones folded, in the same order. */
  function Normalizar(dias: seq<string>): (r: seq<string>)
  {
    seq(|dias|, i requires 0 <= i < |dias| => Minuscula(dias[i]))
  }

  /** `Especialidad(tipo, dias)`: fails with `ValueError` on an empty name,
      an empty day list or a day that is not a weekday name. */
  function CrearEspecialidad(tipo: string, dias: seq<string>): (r: Result<Especialidad, Error>)
    ensures r.Success? <==>
      tipo != [] && dias != [] && forall i :: 0 <= i < |dias| ==> Minuscula(dias[i]) in DiasValidos
    ensures r.Failure? ==> r.error == ValorInvalido
    ensures r.Success? ==>
      && r.value.tipo == tipo
      && |r.value.dias| == |dias|
      && (forall i :: 0 <= i < |dias| ==> r.value.dias[i] == Minuscula(dias[i]))
      && Valida(r.value)
  {
    if tipo == [] || dias == [] then Failure(ValorInvalido)
    else if !TodosLosDiasValidos(dias) then Failure(ValorInvalido)
    else Success(Especialidad(tipo, Normalizar(dias)))
  }

  /** `obtener_especialidad`: the name as given. */
  function ObtenerEspecialidad(e: Especialidad): (r: string)
    ensures Valida(e) ==> r != []
  {
    e.tipo
  }

  /** `verificar_dia(dia)`: the folded day is among the stored days. */
  function VerificarDia(e: Especialidad, dia: string): (r: bool)
    ensures r && Valida(e) ==> Minuscula(dia) in DiasValidos
  {
    Minuscula(dia) in e.dias
  }

  /** The test does not depend on how the day is capitalised. */
  lemma VerificarDiaIgnoraMayusculas(e: Especialidad, dia: string)
    ensures VerificarDia(e, dia) == VerificarDia(e, Minuscula(dia))
  {
    MinusculaIdempotente(dia);
  }

  /** For a constructed specialty the test holds of a day exactly when the
      day matches one of the days given at construction, up to case. */
  lemma VerificarDiaTrasCrear(tipo: string, dias: seq<string>, dia: string)
    requires CrearEspecialidad(tipo, dias).Success?
    ensures VerificarDia(CrearEspecialidad(tipo, dias).value, dia) <==>
      exists i :: 0 <= i < |dias| && Minuscula(dias[i]) == Minuscula(dia)
  {
    var e := CrearEspecialidad(tipo, dias).value;
    if VerificarDia(e, dia) {
      var i :| 0 <= i < |e.dias| && e.dias[i] == Minuscula(dia);
      assert Minuscula(dias[i]) == Minuscula(dia);
    }
    if exists i :: 0 <= i < |dias| && Minuscula(dias[i]) == Minuscula(dia) {
      var i :| 0 <= i < |dias| && Minuscula(dias[i]) == Minuscula(dia);
      assert e.dias[i] == Minuscula(dia);
    }
  }
}
