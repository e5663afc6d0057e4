/** A patient's clinical history (`modelo/modelohistoriaclinica.py`): two
    append-only logs, one of appointments and one of prescriptions. */
module ModeloHistoriaClinica {
  import opened Wrappers
  import opened ModeloExcepciones
  import opened ModeloPaciente
  import opened ModeloTurno
  import opened ModeloReceta

  class HistoriaClinica {
    const paciente: Paciente
    var turnos: seq<Turno>
    var recetas: seq<Receta>

    /** `HistoriaClinica(paciente)` once its check has passed; see `CrearHistoriaClinica`. */
    constructor (paciente: Paciente)
      ensures this.paciente == paciente && turnos == [] && recetas == []
    {
      this.paciente := paciente;
      turnos := [];
      recetas := [];
    }

    /** `agregar_turno`: a missing appointment is rejected with `ValueError`;
        otherwise it goes at the end of the appointment log. */
    method AgregarTurno(turno: Option<Turno>) returns (r: Outcome<Error>)
      modifies this
      ensures r.Fail? <==> turno.None?
      ensures r.Fail? ==> r.error == ValorInvalido
      ensures turnos == if turno.Some? then old(turnos) + [turno.value] else old(turnos)
      ensures recetas == old(recetas)
    {
      if turno.None? {
        return Fail(ValorInvalido);
      }
      turnos := turnos + [turno.value];
      r := Pass;
    }

    /** `agregar_receta`: a missing prescription is rejected with `ValueError`;
        otherwise it goes at the end of the prescription log. */
    method AgregarReceta(receta: Option<Receta>) returns (r: Outcome<Error>)
      modifies this
      ensures r.Fail? <==> receta.None?
      ensures r.Fail? ==> r.error == ValorInvalido
      ensures recetas == if receta.Some? then old(recetas) + [receta.value] else old(recetas)
      ensures turnos == old(turnos)
    {
      if receta.None? {
        return Fail(ValorInvalido);
      }
      recetas := recetas + [receta.value];
      r := Pass;
    }

    /** `obtener_turnos`: a sequence is a value, so what is returned is a
        copy that later appends to the history do not touch. */
    method ObtenerTurnos() returns (r: seq<Turno>)
      ensures r == turnos
    {
      r := turnos;
    }

    /** `obtener_recetas`, a copy as well. */
    method ObtenerRecetas() returns (r: seq<Receta>)
      ensures r == recetas
    {
      r := recetas;
    }
  }

  /** `HistoriaClinica(paciente)`: fails with `ValueError` when the patient
      is missing; a new history has both logs empty. */
  method CrearHistoriaClinica(paciente: Option<Paciente>) returns (r: Result<HistoriaClinica, Error>)
    ensures r.Failure? <==> paciente.None?
    ensures r.Failure? ==> r.error == ValorInvalido
    ensures r.Success? ==>
      fresh(r.value) && r.value.paciente == paciente.value && r.value.turnos == [] && r.value.recetas == []
  {
    if paciente.None? {
      return Failure(ValorInvalido);
    }
    var h := new HistoriaClinica(paciente.value);
    r := Success(h);
  }
}
