/** A prescription (`modelo/modeloreceta.py`): an immutable value. The
    moment of issue, which the source reads from the clock, is a parameter. */
module ModeloReceta {
  import opened Wrappers
  import opened Calendario
  import opened ModeloExcepciones
  import opened ModeloPaciente
  import opened ModeloMedico

  datatype Receta = Receta(paciente: Paciente, medico: Medico, medicamentos: seq<string>, fecha: FechaHora)

  /** `Receta(paciente, medico, medicamentos)`: fails with `ValueError` when
      the patient or the doctor is missing or the list is empty. Only the
      emptiness of the list is checked, not its entries. */
  function CrearReceta(paciente: Option<Paciente>, medico: Medico?, medicamentos: seq<string>, ahora: FechaHora)
    : (r: Result<Receta, Error>)
    ensures r.Success? <==> paciente.Some? && medico != null && medicamentos != []
    ensures r.Failure? ==> r.error == ValorInvalido
    ensures r.Success? ==>
      && r.value.paciente == paciente.value
      && r.value.medico == medico
      && r.value.medicamentos == medicamentos
      && r.value.fecha == ahora
  {
    if paciente.None? || medico == null || medicamentos == [] then Failure(ValorInvalido)
    // the source's second check, on the length, can no longer fail here
    else if |medicamentos| == 0 then Failure(ValorInvalido)
    else Success(Receta(paciente.value, medico, medicamentos, ahora))
  }

  /** A list with an empty name in it is still accepted. */
  lemma RecetaAceptaNombresVacios(p: Paciente, m: Medico, ahora: FechaHora)
    ensures CrearReceta(Some(p), m, [""], ahora).Success?
    ensures CrearReceta(Some(p), m, [""], ahora).value.medicamentos == [""]
  {
  }
}
