/** The clinic of the exception tests (`tests/test_excepciones.py`) on the
    state functions: doctor `MED001` offers Pediatría on Mondays and patient
    `12345678` is registered. Ordinal 739418 is Monday 2025-06-16. */
module EscenariosClinica {
  import opened Wrappers
  import opened Texto
  import opened Calendario
  import opened ModeloExcepciones
  import opened ModeloEspecialidad
  import opened ModeloMedico
  import opened ModeloPaciente
  import opened ReglasClinica
  import opened ModeloClinica

  /** `Especialidad("Pediatría", ["lunes"])` */
  lemma PediatriaLosLunes()
    ensures CrearEspecialidad("Pediatría", ["lunes"]) == Success(Especialidad("Pediatría", ["lunes"]))
  {
    DiasValidosEnMinuscula(0);
    assert Normalizar(["lunes"]) == ["lunes"];
  }

  /** The state after `agregar_medico(medico)` and `agregar_paciente(paciente)`. */
  function Preparada(m: Medico, p: Paciente): (e: Estado)
    requires m.matricula == "MED001" && p.dni == "12345678"
    ensures e.pacientes.Keys == e.historiales.Keys == {"12345678"} && e.medicos.Keys == {"MED001"}
  {
    AgregarPacienteEn(AgregarMedicoEn(Vacia, m).estado, p).estado
  }

  /** `test_turno_ocupado`: the same doctor and timestamp a second time is
      `TurnoOcupadoException`, and the first booking is the only one. */
  lemma TurnoOcupadoAlRepetir(m: Medico, p: Paciente)
    requires m.matricula == "MED001" && p.dni == "12345678"
    ensures
      var agenda := map["MED001" := [Especialidad("Pediatría", ["lunes"])]];
      var lunes := FechaHora(739418, 600);
      var s := AgendarTurnoEn(Preparada(m, p), agenda, "12345678", "MED001", "Pediatría", lunes);
      && s.resultado == Pass
      && |s.estado.turnos| == 1
      && AgendarTurnoEn(s.estado, agenda, "12345678", "MED001", "Pediatría", lunes)
           == Paso(s.estado, Fail(TurnoOcupado("MED001")))
  {
    var agenda := map["MED001" := [Especialidad("Pediatría", ["lunes"])]];
    var lunes := FechaHora(739418, 600);
    DiasConocidos(600);
    DiasValidosEnMinuscula(0);
    assert PrimeraEspecialidad(agenda["MED001"], "lunes") == Some("Pediatría");
    var s := AgendarTurnoEn(Preparada(m, p), agenda, "12345678", "MED001", "Pediatría", lunes);
    assert s.resultado == Pass;
    assert MismoHorario(s.estado.turnos[0], "MED001", lunes);
  }

  /** `test_medico_no_disponible_para_especialidad`: Tuesday 2025-06-17 is
      not a day the doctor works. */
  lemma MedicoNoDisponibleElMartes(m: Medico, p: Paciente)
    requires m.matricula == "MED001" && p.dni == "12345678"
    ensures
      var agenda := map["MED001" := [Especialidad("Pediatría", ["lunes"])]];
      AgendarTurnoEn(Preparada(m, p), agenda, "12345678", "MED001", "Pediatría", FechaHora(739419, 600)).resultado
        == Fail(MedicoNoDisponible("martes"))
  {
    DiasConocidos(600);
  }

  /** `test_paciente_no_encontrado` and `test_receta_invalida_sin_medicamentos`. */
  lemma RecetasRechazadas(m: Medico, p: Paciente, ahora: FechaHora)
    requires m.matricula == "MED001" && p.dni == "12345678"
    ensures EmitirRecetaEn(Preparada(m, p), "00000000", "MED001", ["Paracetamol"], ahora).resultado
              == Fail(PacienteNoEncontrado("00000000"))
    ensures EmitirRecetaEn(Preparada(m, p), "12345678", "MED001", [], ahora).resultado == Fail(RecetaInvalida)
  {
  }

  /** A Monday booking for Pediatría and then a prescription for
      Paracetamol both succeed, and the patient's history then holds one
      appointment and one prescription. */
  lemma TurnoYRecetaEnLaHistoria(m: Medico, p: Paciente, ahora: FechaHora)
    requires m.matricula == "MED001" && p.dni == "12345678"
    ensures
      var agenda := map["MED001" := [Especialidad("Pediatría", ["lunes"])]];
      var s := AgendarTurnoEn(Preparada(m, p), agenda, "12345678", "MED001", "Pediatría", FechaHora(739418, 600));
      var t := EmitirRecetaEn(s.estado, "12345678", "MED001", ["Paracetamol"], ahora);
      && s.resultado == Pass && t.resultado == Pass
      && |t.estado.historiales["12345678"].turnos| == 1
      && |t.estado.historiales["12345678"].recetas| == 1
  {
    var agenda := map["MED001" := [Especialidad("Pediatría", ["lunes"])]];
    DiasConocidos(600);
    DiasValidosEnMinuscula(0);
    assert PrimeraEspecialidad(agenda["MED001"], "lunes") == Some("Pediatría");
  }

  /** `PEDIATRÍA` and `Pediatría` fold to the same string. */
  lemma PediatriaSinMayusculas()
    ensures Minuscula("PEDIATRÍA") == Minuscula("Pediatría") == "pediatría"
  {
    assert forall i :: 0 <= i < 9 ==> Minuscula("PEDIATRÍA")[i] == "pediatría"[i];
    assert forall i :: 0 <= i < 9 ==> Minuscula("Pediatría")[i] == "pediatría"[i];
  }

  /** `setUp` on the objects: the doctor is given Pediatría before being
      registered, then the patient is registered. */
  method ClinicaDelTest() returns (clinica: Clinica, medico: Medico)
    ensures fresh(clinica) && fresh(clinica.historias.Values) && clinica.Valid()
    ensures medico.matricula == "MED001"
    ensures clinica.Vista() == Preparada(medico, Paciente("Juan quintero", "12345678", "01/01/1990"))
    ensures clinica.Agenda() == map["MED001" := [Especialidad("Pediatría", ["lunes"])]]
  {
    medico := new Medico("Dra. Martínez", "MED001");
    var r := medico.AgregarEspecialidad(Especialidad("Pediatría", ["lunes"]));
    assert medico.especialidades == [Especialidad("Pediatría", ["lunes"])];
    clinica := new Clinica();
    r := clinica.AgregarMedico(medico);
    assert clinica.medicos == map["MED001" := medico];
    r := clinica.AgregarPaciente(Paciente("Juan quintero", "12345678", "01/01/1990"));
    assert clinica.medicos == map["MED001" := medico];
  }

  /** Doctor `MED001`, still without specialties, and patient `12345678`
      registered in a new clinic. */
  method ClinicaSinEspecialidades() returns (clinica: Clinica, medico: Medico)
    ensures fresh(clinica) && fresh(clinica.historias.Values) && fresh(medico) && clinica.Valid()
    ensures medico.matricula == "MED001"
    ensures clinica.Vista() == Preparada(medico, Paciente("Juan quintero", "12345678", "01/01/1990"))
    ensures clinica.Agenda() == map["MED001" := []]
  {
    medico := new Medico("Dra. Martínez", "MED001");
    clinica := new Clinica();
    var r := clinica.AgregarMedico(medico);
    assert clinica.medicos == map["MED001" := medico];
    r := clinica.AgregarPaciente(Paciente("Juan quintero", "12345678", "01/01/1990"));
    assert clinica.medicos == map["MED001" := medico];
  }

  /** The same clinic reached the way the command-line front end adds a
      specialty: the doctor is registered first and then given Pediatría
      by licence through the clinic. */
  method ClinicaPorMatricula() returns (clinica: Clinica, medico: Medico)
    ensures fresh(clinica) && fresh(clinica.historias.Values) && clinica.Valid()
    ensures medico.matricula == "MED001"
    ensures clinica.Vista() == Preparada(medico, Paciente("Juan quintero", "12345678", "01/01/1990"))
    ensures clinica.Agenda() == map["MED001" := [Especialidad("Pediatría", ["lunes"])]]
  {
    clinica, medico := ClinicaSinEspecialidades();
    var r := clinica.AgregarEspecialidadAMedico("MED001", Especialidad("Pediatría", ["lunes"]));
    assert r == Pass;
    assert [] + [Especialidad("Pediatría", ["lunes"])] == [Especialidad("Pediatría", ["lunes"])];
  }

  /** `test_turno_ocupado` on the objects, with the specialty added either
      way: a Monday booking spelt `PEDIATRÍA` succeeds and the same booking
      again is `TurnoOcupadoException`. */
  method TurnoOcupadoEnLaClinica(porMatricula: bool) returns (primero: Outcome<Error>, segundo: Outcome<Error>)
    ensures primero == Pass && segundo == Fail(TurnoOcupado("MED001"))
  {
    var lunes := FechaHora(739418, 600);
    var clinica: Clinica, medico: Medico;
    if porMatricula {
      clinica, medico := ClinicaPorMatricula();
    } else {
      clinica, medico := ClinicaDelTest();
    }
    TurnoOcupadoAlRepetir(medico, Paciente("Juan quintero", "12345678", "01/01/1990"));
    PediatriaSinMayusculas();
    ReglaAgendaIgnoraMayusculas({"12345678"}, clinica.Agenda(), [], "12345678", "MED001", "PEDIATRÍA", "Pediatría", lunes);
    primero := clinica.AgendarTurno("12345678", "MED001", "PEDIATRÍA", lunes);
    assert "MED001" in clinica.medicos;
    assert "MED001" in clinica.Agenda();
    assert MismoHorario(clinica.turnos[0], "MED001", lunes);
    segundo := clinica.AgendarTurno("12345678", "MED001", "PEDIATRÍA", lunes);
  }
}
