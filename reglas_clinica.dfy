/** The rules of the clinic aggregate (`modelo/modeloclinica.py`) stated on
    values: the guard chains of booking and prescribing, the state of the
    clinic as a value, one function per operation and the invariant every
    operation keeps. */
module ReglasClinica {
  import opened Wrappers
  import opened Texto
  import opened Calendario
  import opened ModeloExcepciones
  import opened ModeloEspecialidad
  import opened ModeloMedico
  import opened ModeloPaciente
  import opened ModeloTurno
  import opened ModeloReceta
  import opened ModeloHistoriaClinica

  // ---------------------------------------------------------------------
  // The appointment list, as values

  /** The appointment is for doctor `matricula` at exactly `fh`. */
  predicate MismoHorario(t: Turno, matricula: string, fh: FechaHora)
  {
    ObtenerMedico(t).ObtenerMatricula() == matricula && ObtenerFechaHora(t) == fh
  }

  /** Some appointment of the list holds that slot. */
  predicate Ocupado(ts: seq<Turno>, matricula: string, fh: FechaHora)
  {
    exists i :: 0 <= i < |ts| && MismoHorario(ts[i], matricula, fh)
  }

  /** No two appointments share a (licence, timestamp) pair. */
  predicate SinSolapamientos(ts: seq<Turno>)
  {
    forall i, j :: 0 <= i < j < |ts| ==> !MismoHorario(ts[j], ts[i].medico.matricula, ts[i].fechaHora)
  }

  /** Appending an appointment whose slot is free keeps the list free of clashes. */
  lemma AgregarLibreSinSolapamientos(ts: seq<Turno>, t: Turno)
    requires SinSolapamientos(ts)
    requires !Ocupado(ts, t.medico.matricula, t.fechaHora)
    ensures SinSolapamientos(ts + [t])
  {
    var ts' := ts + [t];
    forall i, j | 0 <= i < j < |ts'|
      ensures !MismoHorario(ts'[j], ts'[i].medico.matricula, ts'[i].fechaHora)
    {
      if j == |ts| {
        assert !MismoHorario(ts[i], t.medico.matricula, t.fechaHora);
      }
    }
  }

  /** The appointments of patient `dni`, in booking order. */
  function TurnosDe(ts: seq<Turno>, dni: string): (r: seq<Turno>)
    ensures |r| <= |ts|
    ensures forall i :: 0 <= i < |r| ==> r[i].paciente.dni == dni
    ensures (forall i :: 0 <= i < |ts| ==> ts[i].paciente.dni != dni) ==> r == []
  {
    if ts == [] then []
    else
      var anteriores := TurnosDe(ts[..|ts| - 1], dni);
      var ultimo := ts[|ts| - 1];
      if ultimo.paciente.dni == dni then anteriores + [ultimo] else anteriores
  }

  /** Every entry of the per-patient list comes from the global list, and
      none of the patient's appointments is left out. */
  lemma {:induction false} TurnosDeFiltra(ts: seq<Turno>, dni: string)
    ensures forall i :: 0 <= i < |TurnosDe(ts, dni)| ==> TurnosDe(ts, dni)[i] in ts
    ensures forall i :: 0 <= i < |ts| && ts[i].paciente.dni == dni ==> ts[i] in TurnosDe(ts, dni)
    decreases |ts|
  {
    if ts != [] {
      var previos := ts[..|ts| - 1];
      TurnosDeFiltra(previos, dni);
      assert ts == previos + [ts[|ts| - 1]];
    }
  }

  lemma TurnosDeAgregar(ts: seq<Turno>, t: Turno, dni: string)
    ensures TurnosDe(ts + [t], dni) == TurnosDe(ts, dni) + (if t.paciente.dni == dni then [t] else [])
  {
    assert (ts + [t])[..|ts|] == ts;
  }

  /** The total length of the per-patient lists for the patients `ds`. */
  function Conteo(ts: seq<Turno>, ds: seq<string>): nat
  {
    if ds == [] then 0 else |TurnosDe(ts, ds[0])| + Conteo(ts, ds[1..])
  }

  predicate SinRepetidos(s: seq<string>)
  {
    forall i, j :: 0 <= i < j < |s| ==> s[i] != s[j]
  }

  lemma {:induction false} ConteoVacio(ds: seq<string>)
    ensures Conteo([], ds) == 0
  {
    if ds != [] {
      ConteoVacio(ds[1..]);
    }
  }

  lemma {:induction false} ConteoAgregar(ts: seq<Turno>, t: Turno, ds: seq<string>)
    requires SinRepetidos(ds)
    ensures Conteo(ts + [t], ds) == Conteo(ts, ds) + (if t.paciente.dni in ds then 1 else 0)
  {
    if ds != [] {
      TurnosDeAgregar(ts, t, ds[0]);
      assert SinRepetidos(ds[1..]) by {
        forall i, j | 0 <= i < j < |ds[1..]| ensures ds[1..][i] != ds[1..][j] {
          assert ds[1..][i] == ds[i + 1] && ds[1..][j] == ds[j + 1];
        }
      }
      ConteoAgregar(ts, t, ds[1..]);
      assert t.paciente.dni == ds[0] ==> t.paciente.dni !in ds[1..];
      assert t.paciente.dni in ds <==> t.paciente.dni == ds[0] || t.paciente.dni in ds[1..] by {
        assert ds == [ds[0]] + ds[1..];
      }
    }
  }

  /** When every appointment belongs to one of the patients `ds`, listed
      once each, the per-patient lists together hold every appointment
      exactly once. */
  lemma {:induction false} ConteoTotal(ts: seq<Turno>, ds: seq<string>)
    requires SinRepetidos(ds)
    requires forall i :: 0 <= i < |ts| ==> ts[i].paciente.dni in ds
    ensures Conteo(ts, ds) == |ts|
  {
    if ts == [] {
      ConteoVacio(ds);
    } else {
      var previos := ts[..|ts| - 1];
      assert ts == previos + [ts[|ts| - 1]];
      ConteoTotal(previos, ds);
      ConteoAgregar(previos, ts[|ts| - 1], ds);
    }
  }

  // ---------------------------------------------------------------------
  // The guard chains, as values

  /** Python's `not x` on the optional specialty name: none, or empty. */
  predicate SinNombre(o: Option<string>)
  {
    o.None? || o.value == []
  }

  /** `validar_especialidad_en_dia`: the doctor must offer some specialty
      on `dia` (first match), and its name must equal the requested one up
      to case. */
  function ReglaEspecialidad(es: seq<Especialidad>, solicitada: string, dia: string): (r: Outcome<Error>)
    ensures r == Fail(MedicoNoDisponible(dia)) <==> SinNombre(PrimeraEspecialidad(es, dia))
    ensures r.Fail? && r.error.EspecialidadNoValida? <==>
      !SinNombre(PrimeraEspecialidad(es, dia)) &&
      Minuscula(PrimeraEspecialidad(es, dia).value) != Minuscula(solicitada)
    ensures r.Fail? ==> r == Fail(MedicoNoDisponible(dia)) || r.error.EspecialidadNoValida?
    ensures r.Pass? <==>
      !SinNombre(PrimeraEspecialidad(es, dia)) &&
      Minuscula(PrimeraEspecialidad(es, dia).value) == Minuscula(solicitada)
    ensures r.Fail? && r.error.EspecialidadNoValida? ==>
      r.error == EspecialidadNoValida(solicitada, dia, PrimeraEspecialidad(es, dia).value)
    ensures r.Pass? ==>
      solicitada != [] &&
      exists i :: 0 <= i < |es| && VerificarDia(es[i], dia) &&
        Minuscula(es[i].tipo) == Minuscula(solicitada) &&
        forall j :: 0 <= j < i ==> !VerificarDia(es[j], dia)
  {
    var ofrecida := PrimeraEspecialidad(es, dia);
    if SinNombre(ofrecida) then Fail(MedicoNoDisponible(dia))
    else if Minuscula(ofrecida.value) != Minuscula(solicitada) then
      Fail(EspecialidadNoValida(solicitada, dia, ofrecida.value))
    else
      assert |solicitada| == |Minuscula(solicitada)| == |Minuscula(ofrecida.value)| == |ofrecida.value|;
      Pass
  }

  /** The decision of `agendar_turno`, in the order of its checks: patient,
      doctor, slot, then day and specialty. `pacientes` and `agenda` are the
      registered DNIs and each registered doctor's specialties. */
  function ReglaAgenda(pacientes: set<string>, agenda: map<string, seq<Especialidad>>, turnos: seq<Turno>,
                       dni: string, matricula: string, especialidad: string, fh: FechaHora): (r: Outcome<Error>)
    ensures r == Fail(PacienteNoEncontrado(dni)) <==> dni !in pacientes
    ensures r == Fail(MedicoNoEncontrado(matricula)) <==> dni in pacientes && matricula !in agenda
    ensures r == Fail(TurnoOcupado(matricula)) <==>
      dni in pacientes && matricula in agenda && Ocupado(turnos, matricula, fh)
    ensures r.Fail? && (r.error.MedicoNoDisponible? || r.error.EspecialidadNoValida?) ==>
      dni in pacientes && matricula in agenda && !Ocupado(turnos, matricula, fh) &&
      r == ReglaEspecialidad(agenda[matricula], especialidad, DiaSemanaEnEspanol(fh))
    ensures dni in pacientes && matricula in agenda && !Ocupado(turnos, matricula, fh) ==>
      r == ReglaEspecialidad(agenda[matricula], especialidad, DiaSemanaEnEspanol(fh))
    ensures r.Pass? <==>
      dni in pacientes && matricula in agenda && !Ocupado(turnos, matricula, fh) &&
      ReglaEspecialidad(agenda[matricula], especialidad, DiaSemanaEnEspanol(fh)).Pass?
  {
    if dni !in pacientes then Fail(PacienteNoEncontrado(dni))
    else if matricula !in agenda then Fail(MedicoNoEncontrado(matricula))
    else if Ocupado(turnos, matricula, fh) then Fail(TurnoOcupado(matricula))
    else ReglaEspecialidad(agenda[matricula], especialidad, DiaSemanaEnEspanol(fh))
  }

  /** Whether a booking succeeds does not depend on how the requested
      specialty is capitalised. */
  lemma ReglaAgendaIgnoraMayusculas(pacientes: set<string>, agenda: map<string, seq<Especialidad>>,
                                    turnos: seq<Turno>, dni: string, matricula: string,
                                    e1: string, e2: string, fh: FechaHora)
    requires Minuscula(e1) == Minuscula(e2)
    ensures ReglaAgenda(pacientes, agenda, turnos, dni, matricula, e1, fh).Pass? ==
            ReglaAgenda(pacientes, agenda, turnos, dni, matricula, e2, fh).Pass?
  {
  }

  /** The decision of `emitir_receta`: patient, doctor, then a non-empty list. */
  function ReglaReceta(pacientes: set<string>, medicos: set<string>, dni: string, matricula: string,
                       medicamentos: seq<string>): (r: Outcome<Error>)
    ensures r == Fail(PacienteNoEncontrado(dni)) <==> dni !in pacientes
    ensures r == Fail(MedicoNoEncontrado(matricula)) <==> dni in pacientes && matricula !in medicos
    ensures r == Fail(RecetaInvalida) <==> dni in pacientes && matricula in medicos && medicamentos == []
    ensures r.Pass? <==> dni in pacientes && matricula in medicos && medicamentos != []
  {
    if dni !in pacientes then Fail(PacienteNoEncontrado(dni))
    else if matricula !in medicos then Fail(MedicoNoEncontrado(matricula))
    else if medicamentos == [] then Fail(RecetaInvalida)
    else Pass
  }

  // ---------------------------------------------------------------------
  // The clinic's state, as a value, and its operations on it

  /** The contents of one clinical history. */
  datatype Historial = Historial(turnos: seq<Turno>, recetas: seq<Receta>)

  /** The fields of `Clinica`, with each history object replaced by its contents. */
  datatype Estado = Estado(
    pacientes: map<string, Paciente>, ordenPacientes: seq<string>,
    medicos: map<string, Medico>, ordenMedicos: seq<string>,
    turnos: seq<Turno>,
    historiales: map<string, Historial>)

  /** The state after an operation, and what the operation returned. */
  datatype Paso = Paso(estado: Estado, resultado: Outcome<Error>)

  const Vacia: Estado := Estado(map[], [], map[], [], [], map[])

  /** The appointment refers to the registered patient and doctor. */
  predicate TurnoRegistrado(e: Estado, t: Turno)
  {
    && t.paciente.dni in e.pacientes
    && e.pacientes[t.paciente.dni] == t.paciente
    && t.medico.matricula in e.medicos
    && e.medicos[t.medico.matricula] == t.medico
  }

  /** The prescription is for patient `dni` and from a registered doctor. */
  predicate RecetaRegistrada(e: Estado, dni: string, r: Receta)
  {
    && dni in e.pacientes
    && r.paciente == e.pacientes[dni]
    && r.medico.matricula in e.medicos
    && e.medicos[r.medico.matricula] == r.medico
  }

  /** The entries of a registry read in the order of the given keys, as
      `list(d.values())` reads a dictionary in insertion order. */
  function EnOrden<T>(orden: seq<string>, registro: map<string, T>): (r: seq<T>)
    requires forall k :: 0 <= k < |orden| ==> orden[k] in registro
    ensures |r| == |orden|
    ensures forall k :: 0 <= k < |r| ==> r[k] == registro[orden[k]]
    decreases |orden|
  {
    if orden == [] then [] else [registro[orden[0]]] + EnOrden(orden[1..], registro)
  }

  /** When every key of the registry is in the order, every entry is read off. */
  lemma EnOrdenCompleto<T>(orden: seq<string>, registro: map<string, T>)
    requires forall k :: 0 <= k < |orden| ==> orden[k] in registro
    requires forall d :: d in registro ==> d in orden
    ensures forall d :: d in registro ==> registro[d] in EnOrden(orden, registro)
  {
    forall d | d in registro
      ensures registro[d] in EnOrden(orden, registro)
    {
      var k :| 0 <= k < |orden| && orden[k] == d;
      assert EnOrden(orden, registro)[k] == registro[d];
    }
  }

  /** One history per registered patient and no other; patients stored
      under their DNI; the order lists each DNI once. */
  ghost predicate PacientesOk(e: Estado)
  {
    && e.pacientes.Keys == e.historiales.Keys
    && (forall d :: d in e.pacientes ==> e.pacientes[d].dni == d)
    && SinRepetidos(e.ordenPacientes)
    && (forall d :: d in e.pacientes <==> d in e.ordenPacientes)
  }

  /** Doctors stored under their own licence; the order lists each once. */
  ghost predicate MedicosOk(e: Estado)
  {
    && (forall m :: m in e.medicos ==> e.medicos[m].matricula == m)
    && SinRepetidos(e.ordenMedicos)
    && (forall m :: m in e.medicos <==> m in e.ordenMedicos)
  }

  /** No two appointments for one doctor at one timestamp, and every
      appointment refers to the registered patient and doctor. */
  ghost predicate TurnosOk(e: Estado)
  {
    && SinSolapamientos(e.turnos)
    && (forall i :: 0 <= i < |e.turnos| ==> TurnoRegistrado(e, e.turnos[i]))
  }

  /** Each history holds exactly its patient's appointments, in booking order. */
  ghost predicate HistorialesOk(e: Estado)
  {
    forall d :: d in e.historiales ==> e.historiales[d].turnos == TurnosDe(e.turnos, d)
  }

  /** Each history holds only prescriptions for its patient. */
  ghost predicate RecetasOk(e: Estado)
  {
    forall d :: d in e.historiales ==>
      forall i :: 0 <= i < |e.historiales[d].recetas| ==> RecetaRegistrada(e, d, e.historiales[d].recetas[i])
  }

  /** What every reachable state of the clinic satisfies. */
  ghost predicate Invariante(e: Estado)
  {
    PacientesOk(e) && MedicosOk(e) && TurnosOk(e) && HistorialesOk(e) && RecetasOk(e)
  }

  /** `e2` keeps every patient and doctor of `e1`. */
  ghost predicate Extiende(e1: Estado, e2: Estado)
  {
    && (forall d :: d in e1.pacientes ==> d in e2.pacientes && e2.pacientes[d] == e1.pacientes[d])
    && (forall m :: m in e1.medicos ==> m in e2.medicos && e2.medicos[m] == e1.medicos[m])
  }

  /** The sum of the appointment counts of the histories of `ds`. */
  function TurnosEnHistoriales(h: map<string, Historial>, ds: seq<string>): nat
    requires forall k :: 0 <= k < |ds| ==> ds[k] in h
  {
    if ds == [] then 0 else |h[ds[0]].turnos| + TurnosEnHistoriales(h, ds[1..])
  }

  /** `agregar_paciente` on the state. */
  function AgregarPacienteEn(e: Estado, p: Paciente): (s: Paso)
    ensures s.resultado.Fail? <==> p.dni in e.pacientes
    ensures s.resultado.Fail? ==> s.resultado.error == PacienteDuplicado(p.dni) && s.estado == e
    ensures s.resultado.Pass? ==>
      && s.estado.pacientes == e.pacientes[p.dni := p]
      && s.estado.historiales == e.historiales[p.dni := Historial([], [])]
      && s.estado.ordenPacientes == e.ordenPacientes + [p.dni]
      && s.estado.medicos == e.medicos && s.estado.ordenMedicos == e.ordenMedicos
      && s.estado.turnos == e.turnos
  {
    var dni := ObtenerDni(p);
    if dni in e.pacientes then Paso(e, Fail(PacienteDuplicado(dni)))
    else
      Paso(e.(pacientes := e.pacientes[dni := p],
              ordenPacientes := e.ordenPacientes + [dni],
              historiales := e.historiales[dni := Historial([], [])]),
           Pass)
  }

  /** `agregar_medico` on the state. */
  function AgregarMedicoEn(e: Estado, m: Medico): (s: Paso)
    ensures s.resultado.Fail? <==> m.matricula in e.medicos
    ensures s.resultado.Fail? ==> s.resultado.error == MedicoDuplicado(m.matricula) && s.estado == e
    ensures s.resultado.Pass? ==>
      s.estado == e.(medicos := e.medicos[m.matricula := m], ordenMedicos := e.ordenMedicos + [m.matricula])
  {
    var matricula := m.matricula;
    if matricula in e.medicos then Paso(e, Fail(MedicoDuplicado(matricula)))
    else Paso(e.(medicos := e.medicos[matricula := m], ordenMedicos := e.ordenMedicos + [matricula]), Pass)
  }

  /** `agendar_turno` on the state; `agenda` gives each registered doctor's
      specialties. Failures change nothing; a success appends one
      appointment, with the requested spelling of the specialty, to the
      global list and to that patient's history, and to nothing else. */
  function AgendarTurnoEn(e: Estado, agenda: map<string, seq<Especialidad>>,
                          dni: string, matricula: string, especialidad: string, fh: FechaHora): (s: Paso)
    requires e.pacientes.Keys == e.historiales.Keys && agenda.Keys == e.medicos.Keys
    ensures s.resultado == ReglaAgenda(e.pacientes.Keys, agenda, e.turnos, dni, matricula, especialidad, fh)
    ensures s.resultado.Fail? ==> s.estado == e
    ensures s.resultado.Pass? ==> |s.estado.turnos| == |e.turnos| + 1
    ensures s.resultado.Pass? ==>
      var t := s.estado.turnos[|e.turnos|];
      && s.estado.turnos == e.turnos + [t]
      && t == Turno(e.pacientes[dni], e.medicos[matricula], fh, especialidad)
      && t.especialidad == especialidad
      && s.estado.historiales.Keys == e.historiales.Keys
      && s.estado.historiales[dni].turnos == e.historiales[dni].turnos + [t]
      && s.estado.historiales[dni].recetas == e.historiales[dni].recetas
      && (forall d :: d in e.historiales && d != dni ==> s.estado.historiales[d] == e.historiales[d])
      && s.estado.pacientes == e.pacientes && s.estado.medicos == e.medicos
      && s.estado.ordenPacientes == e.ordenPacientes && s.estado.ordenMedicos == e.ordenMedicos
  {
    var r := ReglaAgenda(e.pacientes.Keys, agenda, e.turnos, dni, matricula, especialidad, fh);
    if r.Fail? then Paso(e, r)
    else
      var t := CrearTurno(Some(e.pacientes[dni]), e.medicos[matricula], Some(fh), especialidad).value;
      var h := e.historiales[dni];
      Paso(e.(turnos := e.turnos + [t], historiales := e.historiales[dni := h.(turnos := h.turnos + [t])]), Pass)
  }

  /** `emitir_receta` on the state; `ahora` stands for the clock. Failures
      change nothing; a success appends one prescription to that patient's
      history and to nothing else, and the appointment list stays as it is. */
  function EmitirRecetaEn(e: Estado, dni: string, matricula: string, medicamentos: seq<string>, ahora: FechaHora)
    : (s: Paso)
    requires e.pacientes.Keys == e.historiales.Keys
    ensures s.resultado == ReglaReceta(e.pacientes.Keys, e.medicos.Keys, dni, matricula, medicamentos)
    ensures s.resultado.Fail? ==> s.estado == e
    ensures s.resultado.Pass? ==>
      && s.estado.historiales.Keys == e.historiales.Keys
      && s.estado.historiales[dni].recetas ==
           e.historiales[dni].recetas + [Receta(e.pacientes[dni], e.medicos[matricula], medicamentos, ahora)]
      && s.estado.historiales[dni].turnos == e.historiales[dni].turnos
      && (forall d :: d in e.historiales && d != dni ==> s.estado.historiales[d] == e.historiales[d])
      && s.estado == e.(historiales := s.estado.historiales)
  {
    var r := ReglaReceta(e.pacientes.Keys, e.medicos.Keys, dni, matricula, medicamentos);
    if r.Fail? then Paso(e, r)
    else
      var receta := CrearReceta(Some(e.pacientes[dni]), e.medicos[matricula], medicamentos, ahora).value;
      var h := e.historiales[dni];
      Paso(e.(historiales := e.historiales[dni := h.(recetas := h.recetas + [receta])]), Pass)
  }

  // ---------------------------------------------------------------------
  // The invariant is kept by every operation

  lemma InvarianteVacia()
    ensures Invariante(Vacia)
  {
  }

  lemma TurnosOkExtiende(e1: Estado, e2: Estado)
    requires TurnosOk(e1) && Extiende(e1, e2) && e2.turnos == e1.turnos
    ensures TurnosOk(e2)
  {
    forall i | 0 <= i < |e2.turnos| ensures TurnoRegistrado(e2, e2.turnos[i]) {
      assert TurnoRegistrado(e1, e1.turnos[i]);
    }
  }

  lemma RecetasOkExtiende(e1: Estado, e2: Estado)
    requires RecetasOk(e1) && Extiende(e1, e2)
    requires forall d :: d in e2.historiales ==> d in e1.historiales || e2.historiales[d].recetas == []
    requires forall d :: d in e1.historiales ==> d in e2.historiales && e2.historiales[d].recetas == e1.historiales[d].recetas
    ensures RecetasOk(e2)
  {
    forall d, i | d in e2.historiales && 0 <= i < |e2.historiales[d].recetas|
      ensures RecetaRegistrada(e2, d, e2.historiales[d].recetas[i])
    {
      assert RecetaRegistrada(e1, d, e1.historiales[d].recetas[i]);
    }
  }

  lemma AgregarPacienteConserva(e: Estado, p: Paciente)
    requires Invariante(e)
    ensures Invariante(AgregarPacienteEn(e, p).estado)
  {
    var e' := AgregarPacienteEn(e, p).estado;
    if p.dni !in e.pacientes {
      assert PacientesOk(e') by {
        assert SinRepetidos(e'.ordenPacientes);
      }
      assert TurnosOk(e') by {
        TurnosOkExtiende(e, e');
      }
      assert HistorialesOk(e') by {
        assert forall i :: 0 <= i < |e.turnos| ==> e.turnos[i].paciente.dni != p.dni by {
          forall i | 0 <= i < |e.turnos| ensures e.turnos[i].paciente.dni != p.dni {
            assert TurnoRegistrado(e, e.turnos[i]);
          }
        }
        assert TurnosDe(e.turnos, p.dni) == [];
      }
      assert RecetasOk(e') by {
        RecetasOkExtiende(e, e');
      }
    }
  }

  lemma AgregarMedicoConserva(e: Estado, m: Medico)
    requires Invariante(e)
    ensures Invariante(AgregarMedicoEn(e, m).estado)
  {
    var e' := AgregarMedicoEn(e, m).estado;
    if m.matricula !in e.medicos {
      assert MedicosOk(e') by {
        assert SinRepetidos(e'.ordenMedicos);
      }
      assert TurnosOk(e') by {
        TurnosOkExtiende(e, e');
      }
      assert RecetasOk(e') by {
        RecetasOkExtiende(e, e');
      }
    }
  }

  lemma AgendarTurnoConserva(e: Estado, agenda: map<string, seq<Especialidad>>,
                             dni: string, matricula: string, especialidad: string, fh: FechaHora)
    requires Invariante(e) && agenda.Keys == e.medicos.Keys
    ensures Invariante(AgendarTurnoEn(e, agenda, dni, matricula, especialidad, fh).estado)
  {
    var s := AgendarTurnoEn(e, agenda, dni, matricula, especialidad, fh);
    var e' := s.estado;
    if s.resultado.Pass? {
      var t := e'.turnos[|e.turnos|];
      assert TurnosOk(e') by {
        AgregarLibreSinSolapamientos(e.turnos, t);
        forall i | 0 <= i < |e'.turnos| ensures TurnoRegistrado(e', e'.turnos[i]) {
          if i < |e.turnos| {
            assert e'.turnos[i] == e.turnos[i];
            assert TurnoRegistrado(e, e.turnos[i]);
          }
        }
      }
      assert HistorialesOk(e') by {
        forall d | d in e'.historiales ensures e'.historiales[d].turnos == TurnosDe(e'.turnos, d) {
          TurnosDeAgregar(e.turnos, t, d);
        }
      }
      assert RecetasOk(e') by {
        RecetasOkExtiende(e, e');
      }
    }
  }

  lemma EmitirRecetaConserva(e: Estado, dni: string, matricula: string, medicamentos: seq<string>, ahora: FechaHora)
    requires Invariante(e)
    ensures Invariante(EmitirRecetaEn(e, dni, matricula, medicamentos, ahora).estado)
  {
    var s := EmitirRecetaEn(e, dni, matricula, medicamentos, ahora);
    var e' := s.estado;
    if s.resultado.Pass? {
      var nueva := Receta(e.pacientes[dni], e.medicos[matricula], medicamentos, ahora);
      assert HistorialesOk(e');
      assert RecetasOk(e') by {
        forall d, i | d in e'.historiales && 0 <= i < |e'.historiales[d].recetas|
          ensures RecetaRegistrada(e', d, e'.historiales[d].recetas[i])
        {
          if d == dni && i == |e.historiales[d].recetas| {
            assert e'.historiales[d].recetas[i] == nueva;
          } else {
            assert e'.historiales[d].recetas[i] == e.historiales[d].recetas[i];
            assert RecetaRegistrada(e, d, e.historiales[d].recetas[i]);
          }
        }
      }
    }
  }

  /** The appointment count of the clinic equals the sum of the appointment
      counts of all the histories. */
  lemma ConteoGlobal(e: Estado)
    requires Invariante(e)
    ensures forall k :: 0 <= k < |e.ordenPacientes| ==> e.ordenPacientes[k] in e.historiales
    ensures |e.turnos| == TurnosEnHistoriales(e.historiales, e.ordenPacientes)
  {
    assert forall i :: 0 <= i < |e.turnos| ==> e.turnos[i].paciente.dni in e.ordenPacientes by {
      forall i | 0 <= i < |e.turnos| ensures e.turnos[i].paciente.dni in e.ordenPacientes {
        assert TurnoRegistrado(e, e.turnos[i]);
      }
    }
    ConteoTotal(e.turnos, e.ordenPacientes);
    SumaEsConteo(e, e.ordenPacientes);
  }

  lemma {:induction false} SumaEsConteo(e: Estado, ds: seq<string>)
    requires Invariante(e)
    requires forall k :: 0 <= k < |ds| ==> ds[k] in e.historiales
    ensures TurnosEnHistoriales(e.historiales, ds) == Conteo(e.turnos, ds)
  {
    if ds != [] {
      SumaEsConteo(e, ds[1..]);
    }
  }

}
