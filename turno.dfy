/** An appointment (`modelo/modeloturno.py`): an immutable value that holds
    the patient, a reference to the doctor, the timestamp and the specialty
    name as the caller spelled it. */
module ModeloTurno {
  import opened Wrappers
  import opened Calendario
  import opened ModeloExcepciones
  import opened ModeloPaciente
  import opened ModeloMedico

  datatype Turno = Turno(paciente: Paciente, medico: Medico, fechaHora: FechaHora, especialidad: string)

  /** `obtener_medico` */
  function ObtenerMedico(t: Turno): Medico
  {
    t.medico
  }

  /** `obtener_fecha_hora` */
  function ObtenerFechaHora(t: Turno): FechaHora
  {
    t.fechaHora
  }

  /** `Turno(paciente, medico, fecha_hora, especialidad)`: fails with
      `ValueError` when a reference is missing (`None`) or the specialty is
      empty; otherwise stores the four values as given. */
  function CrearTurno(paciente: Option<Paciente>, medico: Medico?, fechaHora: Option<FechaHora>, especialidad: string)
    : (r: Result<Turno, Error>)
    ensures r.Success? <==> paciente.Some? && medico != null && fechaHora.Some? && especialidad != []
    ensures r.Failure? ==> r.error == ValorInvalido
    ensures r.Success? ==>
      && r.value.paciente == paciente.value
      && ObtenerMedico(r.value) == medico
      && ObtenerFechaHora(r.value) == fechaHora.value
      && r.value.especialidad == especialidad
  {
    if paciente.None? || medico == null || fechaHora.None? || especialidad == [] then Failure(ValorInvalido)
    else Success(Turno(paciente.value, medico, fechaHora.value, especialidad))
  }
}
