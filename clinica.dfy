/** The clinic aggregate (`modelo/modeloclinica.py`) as a class: the patient
    and doctor registries, the global appointment list and one clinical
    history object per patient, each method proved against the operation
    function of `ReglasClinica`. */
module ModeloClinica {
  import opened Wrappers
  import opened Texto
  import opened Calendario
  import opened ModeloExcepciones
  import opened ModeloEspecialidad
  import opened ModeloMedico
  import opened ModeloPaciente
  import opened ModeloTurno
  import opened ModeloReceta
  import opened ModeloHistoriaClinica
  import opened ReglasClinica

  class Clinica {
    /** The registries in insertion order: a map for lookup and the
        sequence of its keys in the order a Python dictionary lists them. */
    var pacientes: map<string, Paciente>
    var ordenPacientes: seq<string>
    var medicos: map<string, Medico>
    var ordenMedicos: seq<string>
    var turnos: seq<Turno>
    var historias: map<string, HistoriaClinica>
    /** What each history object holds, kept beside the objects. */
    ghost var historiales: map<string, Historial>

    /** The state as a value. */
    ghost function Vista(): Estado
      reads this
    {
      Estado(pacientes, ordenPacientes, medicos, ordenMedicos, turnos, historiales)
    }

    /** Each registered doctor's specialties. */
    ghost function Agenda(): map<string, seq<Especialidad>>
      reads this, medicos.Values
    {
      map m | m in medicos :: medicos[m].especialidades
    }

    /** Every history object belongs to the patient registered under its
        DNI and holds what the ghost copy says. */
    ghost predicate Acoplada()
      reads this, historias.Values
    {
      && historias.Keys == historiales.Keys
      && forall d :: d in historias ==>
           && d in pacientes && historias[d].paciente == pacientes[d] && historias[d].paciente.dni == d
           && historias[d].turnos == historiales[d].turnos && historias[d].recetas == historiales[d].recetas
    }

    ghost predicate Valid()
      reads this, historias.Values
    {
      Acoplada() && Invariante(Vista())
    }

    constructor ()
      ensures Valid()
      ensures Vista() == Vacia && historias == map[]
    {
      pacientes, ordenPacientes := map[], [];
      medicos, ordenMedicos := map[], [];
      turnos := [];
      historias := map[];
      historiales := map[];
      new;
      InvarianteVacia();
    }

    /** The four registry updates of `agregar_paciente`, made in one step. */
    method Inscribir(paciente: Paciente, historia: HistoriaClinica)
      requires Acoplada() && paciente.dni !in historias
      requires historia.paciente == paciente && historia.turnos == [] && historia.recetas == []
      modifies this
      ensures Acoplada()
      ensures pacientes == old(pacientes)[paciente.dni := paciente]
      ensures historias == old(historias)[paciente.dni := historia]
      ensures ordenPacientes == old(ordenPacientes) + [paciente.dni]
      ensures historiales == old(historiales)[paciente.dni := Historial([], [])]
      ensures medicos == old(medicos) && ordenMedicos == old(ordenMedicos) && turnos == old(turnos)
    {
      pacientes := pacientes[paciente.dni := paciente];
      historias := historias[paciente.dni := historia];
      ordenPacientes := ordenPacientes + [paciente.dni];
      historiales := historiales[paciente.dni := Historial([], [])];
    }

    /** `agregar_paciente`: a DNI already registered is rejected with
        `PacienteDuplicadoException`; otherwise the patient is stored and
        given a new, empty history. */
    method AgregarPaciente(paciente: Paciente) returns (r: Outcome<Error>)
      requires Valid()
      modifies this
      ensures Valid()
      ensures Paso(Vista(), r) == AgregarPacienteEn(old(Vista()), paciente)
      ensures r.Fail? ==> historias == old(historias)
      ensures r.Pass? ==>
        var h := historias[paciente.dni];
        historias == old(historias)[paciente.dni := h] && fresh(h) && h.paciente == paciente
    {
      ghost var antes := Vista();
      var dni := ObtenerDni(paciente);
      if dni in pacientes {
        return Fail(PacienteDuplicado(dni));
      }
      var historia := new HistoriaClinica(paciente);
      Inscribir(paciente, historia);
      r := Pass;
      assert Vista() == AgregarPacienteEn(antes, paciente).estado;
      AgregarPacienteConserva(antes, paciente);
    }

    /** `agregar_medico`: a licence already registered is rejected with
        `MedicoDuplicadoException`; otherwise the doctor is stored under it. */
    method AgregarMedico(medico: Medico) returns (r: Outcome<Error>)
      requires Valid()
      modifies this
      ensures Valid()
      ensures Paso(Vista(), r) == AgregarMedicoEn(old(Vista()), medico)
      ensures historias == old(historias)
    {
      ghost var antes := Vista();
      var matricula := medico.ObtenerMatricula();
      if matricula in medicos {
        return Fail(MedicoDuplicado(matricula));
      }
      medicos := medicos[matricula := medico];
      ordenMedicos := ordenMedicos + [matricula];
      r := Pass;
      assert Vista() == AgregarMedicoEn(antes, medico).estado;
      AgregarMedicoConserva(antes, medico);
    }

    /** `obtener_pacientes`: the registered patients, in registration order. */
    function ObtenerPacientes(): (r: seq<Paciente>)
      requires Valid()
      reads this, historias.Values
      ensures |r| == |ordenPacientes|
      ensures forall k :: 0 <= k < |r| ==> ordenPacientes[k] in pacientes && r[k] == pacientes[ordenPacientes[k]]
      ensures forall k :: 0 <= k < |r| ==> r[k].dni in pacientes && r[k] == pacientes[r[k].dni]
      ensures forall i, j :: 0 <= i < j < |r| ==> r[i].dni != r[j].dni
      ensures forall d :: d in pacientes ==> pacientes[d] in r
    {
      assert PacientesOk(Vista());
      EnOrdenCompleto(ordenPacientes, pacientes);
      EnOrden(ordenPacientes, pacientes)
    }

    /** `obtener_medicos`: the registered doctors, in registration order. */
    function ObtenerMedicos(): (r: seq<Medico>)
      requires Valid()
      reads this, historias.Values
      ensures |r| == |ordenMedicos|
      ensures forall k :: 0 <= k < |r| ==> ordenMedicos[k] in medicos && r[k] == medicos[ordenMedicos[k]]
      ensures forall k :: 0 <= k < |r| ==> r[k].matricula in medicos && r[k] == medicos[r[k].matricula]
      ensures forall i, j :: 0 <= i < j < |r| ==> r[i].matricula != r[j].matricula
      ensures forall m :: m in medicos ==> medicos[m] in r
    {
      assert MedicosOk(Vista());
      EnOrdenCompleto(ordenMedicos, medicos);
      EnOrden(ordenMedicos, medicos)
    }

    /** `obtener_medico_por_matricula`: the stored doctor object itself, or
        `MedicoNoEncontradoException`. */
    function ObtenerMedicoPorMatricula(matricula: string): (r: Result<Medico, Error>)
      reads this
      ensures r.Failure? <==> matricula !in medicos
      ensures r.Failure? ==> r.error == MedicoNoEncontrado(matricula)
      ensures r.Success? ==> r.value == medicos[matricula]
    {
      if matricula !in medicos then Failure(MedicoNoEncontrado(matricula)) else Success(medicos[matricula])
    }

    /** Adding a specialty to a registered doctor, as the command-line front
        end does it: look the doctor up by licence, then ask that doctor. Only
        that licence's list of specialties can change. */
    method AgregarEspecialidadAMedico(matricula: string, e: Especialidad) returns (r: Outcome<Error>)
      requires Valid()
      modifies medicos.Values
      ensures Valid() && Vista() == old(Vista())
      ensures matricula !in medicos ==> r == Fail(MedicoNoEncontrado(matricula)) && Agenda() == old(Agenda())
      ensures matricula in medicos ==>
        && (r.Fail? <==> exists i :: 0 <= i < |old(Agenda())[matricula]| && old(Agenda())[matricula][i].tipo == e.tipo)
        && (r.Fail? ==> r.error == ValorInvalido)
        && Agenda() == old(Agenda())[matricula := if r.Pass? then old(Agenda())[matricula] + [e] else old(Agenda())[matricula]]
    {
      var buscado := ObtenerMedicoPorMatricula(matricula);
      if buscado.Failure? {
        return Fail(buscado.error);
      }
      var medico := buscado.value;
      assert MedicosOk(Vista());
      assert forall m :: m in medicos && m != matricula ==> medicos[m] != medico;
      assert Agenda()[matricula] == medico.especialidades;
      r := medico.AgregarEspecialidad(e);
    }

    /** `validar_existencia_paciente`. */
    function ValidarExistenciaPaciente(dni: string): (r: Outcome<Error>)
      reads this
      ensures r.Fail? <==> dni !in pacientes
      ensures r.Fail? ==> r.error == PacienteNoEncontrado(dni)
    {
      if dni !in pacientes then Fail(PacienteNoEncontrado(dni)) else Pass
    }

    /** `validar_existencia_medico`. */
    function ValidarExistenciaMedico(matricula: string): (r: Outcome<Error>)
      reads this
      ensures r.Fail? <==> matricula !in medicos
      ensures r.Fail? ==> r.error == MedicoNoEncontrado(matricula)
    {
      if matricula !in medicos then Fail(MedicoNoEncontrado(matricula)) else Pass
    }

    /** `validar_turno_no_duplicado`: a scan of the appointment list for the
        same doctor at the same timestamp. */
    method ValidarTurnoNoDuplicado(matricula: string, fechaHora: FechaHora) returns (r: Outcome<Error>)
      ensures r.Fail? <==> Ocupado(turnos, matricula, fechaHora)
      ensures r.Fail? ==> r.error == TurnoOcupado(matricula)
    {
      for i := 0 to |turnos|
        invariant forall k :: 0 <= k < i ==> !MismoHorario(turnos[k], matricula, fechaHora)
      {
        var turno := turnos[i];
        if ObtenerMedico(turno).ObtenerMatricula() == matricula && ObtenerFechaHora(turno) == fechaHora {
          return Fail(TurnoOcupado(matricula));
        }
      }
      return Pass;
    }

    /** `obtener_especialidad_disponible`: the doctor's first specialty for
        `dia`, or `MedicoNoDisponibleException` when there is none or its
        name is empty. */
    method ObtenerEspecialidadDisponible(medico: Medico, dia: string) returns (r: Result<string, Error>)
      ensures r.Failure? <==> SinNombre(PrimeraEspecialidad(medico.especialidades, dia))
      ensures r.Failure? ==> r.error == MedicoNoDisponible(dia)
      ensures r.Success? ==> r.value != [] && PrimeraEspecialidad(medico.especialidades, dia) == Some(r.value)
    {
      var especialidad := medico.ObtenerEspecialidadParaDia(dia);
      if SinNombre(especialidad) {
        return Failure(MedicoNoDisponible(dia));
      }
      return Success(especialidad.value);
    }

    /** `validar_especialidad_en_dia`. */
    method ValidarEspecialidadEnDia(medico: Medico, solicitada: string, dia: string) returns (r: Outcome<Error>)
      ensures r == ReglaEspecialidad(medico.especialidades, solicitada, dia)
    {
      var disponible := medico.ObtenerEspecialidadParaDia(dia);
      if SinNombre(disponible) {
        return Fail(MedicoNoDisponible(dia));
      }
      if Minuscula(disponible.value) != Minuscula(solicitada) {
        return Fail(EspecialidadNoValida(solicitada, dia, disponible.value));
      }
      return Pass;
    }

    /** The checks of `agendar_turno`, in the order it makes them: the
        patient, the doctor, the doctor's slot, then the specialty the
        doctor offers on that weekday. */
    method ValidarAgenda(dni: string, matricula: string, especialidad: string, fechaHora: FechaHora)
      returns (r: Outcome<Error>)
      ensures r == ReglaAgenda(pacientes.Keys, Agenda(), turnos, dni, matricula, especialidad, fechaHora)
    {
      r := ValidarExistenciaPaciente(dni);
      if r.Fail? {
        return;
      }
      r := ValidarExistenciaMedico(matricula);
      if r.Fail? {
        return;
      }
      var medico := medicos[matricula];
      r := ValidarTurnoNoDuplicado(matricula, fechaHora);
      if r.Fail? {
        return;
      }
      var dia := DiaSemanaEnEspanol(fechaHora);
      r := ValidarEspecialidadEnDia(medico, especialidad, dia);
    }

    /** `agendar_turno`: the checks in their order, then the appointment is
        appended to the global list and to the patient's history object. */
    method AgendarTurno(dni: string, matricula: string, especialidad: string, fechaHora: FechaHora)
      returns (r: Outcome<Error>)
      requires Valid()
      modifies this, historias.Values
      ensures Valid()
      ensures Paso(Vista(), r) == AgendarTurnoEn(old(Vista()), old(Agenda()), dni, matricula, especialidad, fechaHora)
      ensures historias == old(historias)
    {
      ghost var antes := Vista();
      ghost var agenda := Agenda();
      r := ValidarAgenda(dni, matricula, especialidad, fechaHora);
      if r.Fail? {
        return;
      }
      var turno := CrearTurno(Some(pacientes[dni]), medicos[matricula], Some(fechaHora), especialidad).value;
      Anotar(dni, historias[dni], turno);
      assert Vista() == AgendarTurnoEn(antes, agenda, dni, matricula, especialidad, fechaHora).estado;
      AgendarTurnoConserva(antes, agenda, dni, matricula, especialidad, fechaHora);
    }

    /** The bookkeeping of a booked appointment: it joins the global list
        and the patient's history object, and the ghost copy follows. */
    method Anotar(dni: string, historia: HistoriaClinica, turno: Turno)
      requires Acoplada() && dni in historias && historia == historias[dni]
      modifies this, historia
      ensures Acoplada()
      ensures turnos == old(turnos) + [turno]
      ensures historia.turnos == old(historia.turnos) + [turno] && historia.recetas == old(historia.recetas)
      ensures historiales == old(historiales)[dni := Historial(historia.turnos, historia.recetas)]
      ensures && pacientes == old(pacientes) && ordenPacientes == old(ordenPacientes)
              && medicos == old(medicos) && ordenMedicos == old(ordenMedicos) && historias == old(historias)
    {
      turnos := turnos + [turno];
      var agregado := historia.AgregarTurno(Some(turno));
      historiales := historiales[dni := Historial(historia.turnos, historia.recetas)];
    }

    /** `obtener_turnos`: a copy of the appointment list; no two of its
        appointments share a doctor and a timestamp. */
    method ObtenerTurnos() returns (r: seq<Turno>)
      requires Valid()
      ensures r == turnos
      ensures SinSolapamientos(r)
    {
      r := turnos;
    }

    /** `emitir_receta`: the checks in their order, then the prescription,
        dated `ahora`, is appended to the patient's history object. */
    method EmitirReceta(dni: string, matricula: string, medicamentos: seq<string>, ahora: FechaHora)
      returns (r: Outcome<Error>)
      requires Valid()
      modifies this, historias.Values
      ensures Valid()
      ensures Paso(Vista(), r) == EmitirRecetaEn(old(Vista()), dni, matricula, medicamentos, ahora)
      ensures historias == old(historias)
    {
      ghost var antes := Vista();
      r := ValidarExistenciaPaciente(dni);
      if r.Fail? {
        return;
      }
      r := ValidarExistenciaMedico(matricula);
      if r.Fail? {
        return;
      }
      if medicamentos == [] {
        return Fail(RecetaInvalida);
      }
      var paciente := pacientes[dni];
      var medico := medicos[matricula];
      var receta := CrearReceta(Some(paciente), medico, medicamentos, ahora).value;
      Recetar(dni, historias[dni], receta);
      assert Vista() == EmitirRecetaEn(antes, dni, matricula, medicamentos, ahora).estado;
      EmitirRecetaConserva(antes, dni, matricula, medicamentos, ahora);
    }

    /** The bookkeeping of an issued prescription: it joins the patient's
        history object, and the ghost copy follows. */
    method Recetar(dni: string, historia: HistoriaClinica, receta: Receta)
      requires Acoplada() && dni in historias && historia == historias[dni]
      modifies this, historia
      ensures Acoplada()
      ensures historia.recetas == old(historia.recetas) + [receta] && historia.turnos == old(historia.turnos)
      ensures historiales == old(historiales)[dni := Historial(historia.turnos, historia.recetas)]
      ensures && pacientes == old(pacientes) && ordenPacientes == old(ordenPacientes) && turnos == old(turnos)
              && medicos == old(medicos) && ordenMedicos == old(ordenMedicos) && historias == old(historias)
    {
      var agregada := historia.AgregarReceta(Some(receta));
      historiales := historiales[dni := Historial(historia.turnos, historia.recetas)];
    }

    /** `obtener_historia_clinica`: the patient's history object itself, or
        `PacienteNoEncontradoException`; it holds exactly that patient's
        appointments, in booking order, and only prescriptions for them. */
    function ObtenerHistoriaClinica(dni: string): (r: Result<HistoriaClinica, Error>)
      requires Valid()
      reads this, historias.Values
      ensures r.Failure? <==> dni !in pacientes
      ensures r.Failure? ==> r.error == PacienteNoEncontrado(dni)
      ensures r.Success? ==>
        && r.value == historias[dni]
        && r.value.paciente == pacientes[dni]
        && r.value.turnos == TurnosDe(turnos, dni)
        && forall i :: 0 <= i < |r.value.recetas| ==> r.value.recetas[i].paciente == pacientes[dni]
    {
      if dni !in pacientes then Failure(PacienteNoEncontrado(dni))
      else
        assert HistorialesOk(Vista()) && RecetasOk(Vista());
        assert forall i :: 0 <= i < |historiales[dni].recetas| ==>
          RecetaRegistrada(Vista(), dni, historiales[dni].recetas[i]);
        Success(historias[dni])
    }
  }
}
